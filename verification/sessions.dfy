/** The therapy-session record of the sessions history and its sample data. */
module Sessions {
  import opened Options
  import opened Therapy

  /** `'completed' | 'pending-review' | 'cancelled'`. */
  datatype SessionStatus = Completed | PendingReview | Cancelled

  datatype Session = Session(
    id: string,
    childId: string,
    childName: string,
    therapyType: TherapyType,
    date: string,           // "YYYY-MM-DD"
    time: string,           // "HH:MM"
    duration: string,
    performance: int,
    status: SessionStatus,
    aiRecommendation: Option<string>)

  /** The ten sessions the history page lists. */
  const AllSessions: seq<Session> := [
    Session("s1", "1", "Alex Johnson", Speech, "2023-06-20", "14:30", "45 min", 4, Completed,
      Some("Increase difficulty of articulation exercises. Focus on 's' and 'th' sounds.")),
    Session("s2", "2", "Mia Rodriguez", Sensory, "2023-06-19", "10:15", "30 min", 3, Completed,
      Some("Try more tactile integration activities. Use various textures in next session.")),
    Session("s3", "3", "Noah Williams", Speech, "2023-06-17", "13:45", "40 min", 2, Completed,
      Some("Simplify vocabulary exercises and add visual cues. Use picture cards more extensively.")),
    Session("s4", "4", "Emily Chen", Behavior, "2023-06-18", "11:00", "50 min", 5, Completed,
      Some("Excellent progress. Continue with current strategy and gradually increase complexity.")),
    Session("s5", "5", "Liam Wilson", Special, "2023-06-13", "09:30", "45 min", 3, Completed,
      Some("Maintain current pace. Consider adding more math-focused activities in next session.")),
    Session("s6", "6", "Sophia Martinez", Occupational, "2023-06-16", "15:00", "35 min", 4, Completed,
      Some("Great progress with fine motor skills. Focus on bilateral coordination activities next.")),
    Session("s7", "7", "Jackson Brown", Behavior, "2023-06-15", "10:45", "40 min", 3, Completed,
      Some("Continue working on impulse control. Try using visual timer for transitions.")),
    Session("s8", "1", "Alex Johnson", Behavior, "2023-06-14", "13:00", "45 min", 4, Completed,
      Some("Good progress on social communication. Add more peer interaction activities.")),
    Session("s9", "2", "Mia Rodriguez", Adl, "2023-06-20", "16:30", "30 min", 3, PendingReview, None),
    Session("s10", "3", "Noah Williams", Speech, "2023-06-21", "09:00", "45 min", 0, Cancelled, None)
  ]
}
