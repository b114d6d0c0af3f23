/** SourceClientBase.readSysinfoValue: the dispatch of a read request to the reader for its
    information type. It belongs to the revision whose information types are HEALTH and STATE. */
module SourceClientBase {
  import opened Wrappers

  /** The information types of that revision: HEALTH, STATE, and any further constant it may
      declare, which has no reader yet. */
  datatype InfoType = Health | State | OtherInfoType(name: string)

  /** readSysinfoValue: null is an IllegalArgumentException, HEALTH returns what readHealthInfo
      returns (or throws), STATE what readStateInfo returns, and any other type is an
      UnsupportedOperationException. The readers are the subclass's, given as their outcomes. */
  function ReadSysinfoValue(infoType: Option<InfoType>, readHealthInfo: Result<string>, readStateInfo: Result<string>): (r: Result<string>)
    ensures infoType.None? ==> r.Err? && r.error.IllegalArgument?
    ensures infoType == Some(Health) ==> r == readHealthInfo
    ensures infoType == Some(State) ==> r == readStateInfo
    ensures infoType.Some? && infoType.value.OtherInfoType? ==> r == Err(UnsupportedOperation)
  {
    match infoType
    case None => Err(IllegalArgument("infoType parameter must be defined"))
    case Some(Health) => readHealthInfo
    case Some(State) => readStateInfo
    case Some(OtherInfoType(_)) => Err(UnsupportedOperation)
  }
}
