/** The hoarding document schema: its fields, their constraints and defaults. */
module HoardingModel {
  import opened Base

  const AVAILABLE: string := "available"
  const BOOKED: string := "booked"
  const MAINTENANCE: string := "maintenance"

  /** The values the schema's `status` enum admits. Its default, AVAILABLE, is never
      reached: the create handler always passes a status (`status || 'available'`). */
  const HOARDING_STATUSES: set<string> := {AVAILABLE, BOOKED, MAINTENANCE}

  /** Width and height in metres. */
  datatype Size = Size(width: int, height: int)

  /** A hoarding document. `location` holds what the schema's `trim` setter stored;
      `createdBy` is optional here because no request path is forced to supply it.
      The optional `image` and `description` fields are not modelled. */
  datatype Hoarding = Hoarding(
    location: string,
    size: Size,
    price: int,
    status: string,
    createdBy: Option<Id>)

  /** The characters the model's `trim` removes. */
  predicate IsSpace(c: char) {
    c == ' ' || c == '\t' || c == '\n' || c == '\r'
  }

  /** Drops leading white space. */
  function TrimStart(s: string): (t: string)
    ensures |t| <= |s| && t == s[|s| - |t|..]
    ensures t == [] || !IsSpace(t[0])
    ensures forall i :: 0 <= i < |s| - |t| ==> IsSpace(s[i])
  {
    if s != [] && IsSpace(s[0]) then TrimStart(s[1..]) else s
  }

  /** Drops trailing white space. */
  function TrimEnd(s: string): (t: string)
    ensures |t| <= |s| && t == s[..|t|]
    ensures t == [] || !IsSpace(t[|t| - 1])
    ensures forall i :: |t| <= i < |s| ==> IsSpace(s[i])
  {
    if s != [] && IsSpace(s[|s| - 1]) then TrimEnd(s[..|s| - 1]) else s
  }

  /** The schema's `trim: true` setter on `location`: the result has no white space at
      either end, and is empty exactly when the input was nothing but white space. */
  function Trim(s: string): (t: string)
    ensures |t| <= |s|
    ensures t == [] || (!IsSpace(t[0]) && !IsSpace(t[|t| - 1]))
    ensures t == [] <==> forall i :: 0 <= i < |s| ==> IsSpace(s[i])
  {
    var u := TrimStart(s);
    var t := TrimEnd(u);
    // an empty result leaves only white space in u, whose first character is not white
    assert t == [] ==> u == [];
    t
  }

  /** Trimming keeps exactly the middle of the input: the result is the slice of `s`
      that starts at offset `i`, and everything outside that slice is white space. */
  lemma {:induction false} TrimRemovesOuterSpace(s: string) returns (i: nat)
    ensures i + |Trim(s)| <= |s|
    ensures Trim(s) == s[i..i + |Trim(s)|]
    ensures forall k :: 0 <= k < i ==> IsSpace(s[k])
    ensures forall k :: i + |Trim(s)| <= k < |s| ==> IsSpace(s[k])
  {
    var u := TrimStart(s);
    var t := TrimEnd(u);
    MiddleSlice(s, u, t);
    i := |s| - |u|;
    assert Trim(s) == t;
  }

  /** Dropping white space from the front of `s` (giving `u`) and then from the back of
      `u` (giving `t`) leaves a slice of `s` with only white space around it. */
  lemma MiddleSlice(s: string, u: string, t: string)
    requires |u| <= |s| && u == s[|s| - |u|..]
    requires |t| <= |u| && t == u[..|t|]
    requires forall k :: 0 <= k < |s| - |u| ==> IsSpace(s[k])
    requires forall k :: |t| <= k < |u| ==> IsSpace(u[k])
    ensures var i := |s| - |u|;
      && i + |t| <= |s|
      && t == s[i..i + |t|]
      && (forall k :: 0 <= k < i ==> IsSpace(s[k]))
      && (forall k :: i + |t| <= k < |s| ==> IsSpace(s[k]))
  {
    var i := |s| - |u|;
    assert t == s[i..i + |t|];
    forall k | i + |t| <= k < |s|
      ensures IsSpace(s[k])
    {
      assert s[k] == u[k - i];
    }
  }

  /** A string with no white space at either end: what the trim setter stores. */
  predicate Trimmed(s: string) {
    s == [] || (!IsSpace(s[0]) && !IsSpace(s[|s| - 1]))
  }

  /** Trimming yields a trimmed string. */
  lemma TrimYieldsTrimmed(s: string)
    ensures Trimmed(Trim(s))
  {
  }

  /** Trimming leaves a trimmed string as it is. */
  lemma TrimKeepsTrimmed(s: string)
    requires Trimmed(s)
    ensures Trim(s) == s
  {
    assert TrimStart(s) == s;
    assert TrimEnd(s) == s;
  }

  /** Trimming twice is trimming once, so a stored location survives being re-assigned. */
  lemma TrimIdempotent(s: string)
    ensures Trim(Trim(s)) == Trim(s)
  {
    TrimYieldsTrimmed(s);
    TrimKeepsTrimmed(Trim(s));
  }

  /** The schema constraints: a location that is present after trimming, both sides at
      least one metre, a non-negative daily price, a status from the enum, and the
      required creator reference. */
  predicate ValidHoarding(h: Hoarding) {
    && h.location != ""
    && h.size.width >= 1 && h.size.height >= 1
    && h.price >= 0
    && h.status in HOARDING_STATUSES
    && h.createdBy.Some?
  }

  /** The approval side effect writes `booked` without running the validators; the
      document it leaves behind is still valid. */
  lemma MarkBookedKeepsValid(h: Hoarding)
    requires ValidHoarding(h)
    ensures ValidHoarding(h.(status := BOOKED))
  {
  }

  /** A hoarding without a creator reference is never valid, whatever its other fields. */
  lemma CreatorRequired(h: Hoarding)
    requires h.createdBy.None?
    ensures !ValidHoarding(h)
  {
  }
}
