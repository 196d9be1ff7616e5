/** The therapy and child-status enumerations of the child card, with their display tables. */
module Therapy {

  /** The six therapy types; `Name` gives the string each one is in the source. */
  datatype TherapyType = Speech | Behavior | Occupational | Adl | Sensory | Special

  /** The order in which the filter bars and the type picker list the types. */
  const AllTherapyTypes: seq<TherapyType> := [Speech, Behavior, Occupational, Adl, Sensory, Special]

  /** The string-literal value of the union member. */
  function Name(t: TherapyType): string {
    match t
    case Speech => "speech"
    case Behavior => "behavior"
    case Occupational => "occupational"
    case Adl => "adl"
    case Sensory => "sensory"
    case Special => "special"
  }

  /** The chip label (`TherapyTypeChip.getLabel`). */
  function Label(t: TherapyType): string {
    match t
    case Speech => "Speech"
    case Behavior => "Behavior"
    case Occupational => "OT"
    case Adl => "ADL"
    case Sensory => "Sensory"
    case Special => "Special Ed"
  }

  /** A child's progress status. */
  datatype ChildStatus = Good | NeedsAttention | Stagnation

  /** The status caption on a child card (`statusText`). */
  function StatusText(s: ChildStatus): string {
    match s
    case Good => "Good Progress"
    case NeedsAttention => "Needs Attention"
    case Stagnation => "Stagnation Detected"
  }

  /** A child as shown on cards and lists; `image` is presentation only and left out. */
  datatype ChildProfile = ChildProfile(
    id: string,
    name: string,
    age: int,
    therapyTypes: seq<TherapyType>,
    status: ChildStatus,
    lastSession: string,
    progress: int)

  /** The type list names every type exactly once. */
  lemma AllTherapyTypesEnumerates()
    ensures |AllTherapyTypes| == 6
    ensures forall t: TherapyType :: t in AllTherapyTypes
    ensures forall i, j :: 0 <= i < j < |AllTherapyTypes| ==> AllTherapyTypes[i] != AllTherapyTypes[j]
  {
    forall t: TherapyType
      ensures t in AllTherapyTypes
    {
      var i := match t
        case Speech => 0 case Behavior => 1 case Occupational => 2
        case Adl => 3 case Sensory => 4 case Special => 5;
      assert AllTherapyTypes[i] == t;
    }
  }

  /** Distinct types carry distinct chip labels. */
  lemma LabelInjective(a: TherapyType, b: TherapyType)
    ensures Label(a) == Label(b) <==> a == b
  {
  }

  /** Distinct types are distinct strings in the source. */
  lemma NameInjective(a: TherapyType, b: TherapyType)
    ensures Name(a) == Name(b) <==> a == b
  {
  }

  /** Distinct statuses carry distinct captions. */
  lemma StatusTextInjective(a: ChildStatus, b: ChildStatus)
    ensures StatusText(a) == StatusText(b) <==> a == b
  {
  }
}
