/** Translation between the client's `Group` and the wire form the admin API exchanges, where the
    active flag travels as the string "true" or "false". */
module Translate {
  import opened Wrappers
  import opened Errors

  datatype Group = Group(groupId: string, groupName: string, active: bool)

  /** The wire form of a group, as `toInternal` produces it and the API returns it. */
  datatype GroupWire = GroupWire(groupId: string, groupName: string, active: string)

  function FormatBool(b: bool): (s: string)
    ensures s == "true" || s == "false"
  {
    if b then "true" else "false"
  }

  /** Accepts exactly the two boolean literals; anything else is a decode error. */
  function ParseBool(s: string): (r: Result<bool, Error>)
    ensures r.Success? <==> s == "true" || s == "false"
    ensures r.Success? ==> FormatBool(r.value) == s
    ensures r.Failure? ==> r.error.Decode?
  {
    if s == "true" then Success(true)
    else if s == "false" then Success(false)
    else Failure(Decode("invalid boolean: " + s))
  }

  /** `toInternal`: the wire form of a group. */
  function ToInternal(g: Group): GroupWire
  {
    GroupWire(g.groupId, g.groupName, FormatBool(g.active))
  }

  /** Decode a wire group; fails exactly when the active flag is not a boolean literal. */
  function FromInternal(w: GroupWire): (r: Result<Group, Error>)
    ensures r.Success? <==> w.active == "true" || w.active == "false"
  {
    match ParseBool(w.active)
    case Success(b) => Success(Group(w.groupId, w.groupName, b))
    case Failure(e) => Failure(e)
  }

  /** Decoding what `toInternal` produced gives the group back. */
  lemma RoundTrip(g: Group)
    ensures FromInternal(ToInternal(g)) == Success(g)
  {
  }

  /** A wire group that decodes is exactly the wire form of what it decodes to. */
  lemma WireRoundTrip(w: GroupWire)
    requires FromInternal(w).Success?
    ensures ToInternal(FromInternal(w).value) == w
  {
  }
}
