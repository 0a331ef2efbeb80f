/**
 * `_stringify_artist`: turning the many shapes a provider uses for an artist
 * (a name, a record with a name, a list of either) into one display string.
 */
module Artists {
  import opened Common
  import opened Values

  /** `_stringify_artist(value)` of app/download_manager.py. */
  function StringifyArtist(v: Value): Result<Value> {
    match v
    case VNone => Ok(VNone)
    case VStr(_) => Ok(v)
    case VDict(d) => Ok(Or(Or(Lookup(d, "name"), Lookup(d, "artist")), Lookup(d, "title")))
    case VList(items) => JoinParts(seq(|items|, i requires 0 <= i < |items| => StringifyArtist(items[i])))
    case _ => Ok(VStr(Str(v)))
  }

  /** The same function as app/main.py writes it: `None` parts are dropped first. */
  function StringifyArtistMain(v: Value): Result<Value> {
    match v
    case VNone => Ok(VNone)
    case VStr(_) => Ok(v)
    case VDict(d) => Ok(Or(Or(Lookup(d, "name"), Lookup(d, "artist")), Lookup(d, "title")))
    case VList(items) =>
      JoinParts(DropNone(seq(|items|, i requires 0 <= i < |items| => StringifyArtistMain(items[i]))))
    case _ => Ok(VStr(Str(v)))
  }

  /** `[p for p in parts if p is not None]`; a part that raised still raises. */
  function DropNone(parts: seq<Result<Value>>): seq<Result<Value>> {
    if |parts| == 0 then []
    else (if parts[0] == Ok(VNone) then [] else [parts[0]]) + DropNone(parts[1..])
  }

  /** The first exception raised while computing the parts, in order. */
  function FirstRaised(parts: seq<Result<Value>>): Option<PyError> {
    if |parts| == 0 then None
    else if parts[0].Raised? then Some(parts[0].error)
    else FirstRaised(parts[1..])
  }

  /** `[p for p in parts if p]`, once no part raised. */
  function Kept(parts: seq<Result<Value>>): (kept: seq<Value>)
    ensures forall p :: p in kept ==> Truthy(p)
  {
    if |parts| == 0 then []
    else (if parts[0].Ok? && Truthy(parts[0].value) then [parts[0].value] else []) + Kept(parts[1..])
  }

  /** `", ".join(...)` of the kept parts: a kept part that is not a string raises `TypeError`. */
  function JoinParts(parts: seq<Result<Value>>): Result<Value> {
    match FirstRaised(parts)
    case Some(e) => Raised(e)
    case None =>
      var kept := Kept(parts);
      if forall i :: 0 <= i < |kept| ==> kept[i].VStr? then
        Ok(VStr(Join(seq(|kept|, i requires 0 <= i < |kept| => kept[i].s), ", ")))
      else Raised(TypeError)
  }

  function NonEmpty(ss: seq<string>): (r: seq<string>)
    ensures forall s :: s in r ==> s != ""
  {
    if |ss| == 0 then [] else (if ss[0] == "" then [] else [ss[0]]) + NonEmpty(ss[1..])
  }

  function AsValues(ss: seq<string>): (vs: seq<Value>)
    ensures |vs| == |ss| && forall i :: 0 <= i < |ss| ==> vs[i] == VStr(ss[i])
  {
    if |ss| == 0 then [] else [VStr(ss[0])] + AsValues(ss[1..])
  }

  function OkStrs(ss: seq<string>): (parts: seq<Result<Value>>)
    ensures |parts| == |ss| && forall i :: 0 <= i < |ss| ==> parts[i] == Ok(VStr(ss[i]))
  {
    if |ss| == 0 then [] else [Ok(VStr(ss[0]))] + OkStrs(ss[1..])
  }

  lemma {:induction false} KeptOfStrings(ss: seq<string>)
    ensures FirstRaised(OkStrs(ss)) == None
    ensures Kept(OkStrs(ss)) == AsValues(NonEmpty(ss))
  {
    if |ss| > 0 {
      KeptOfStrings(ss[1..]);
      assert OkStrs(ss)[1..] == OkStrs(ss[1..]);
    }
  }

  /** A list of names becomes the comma-separated non-empty names. */
  lemma ArtistOfNames(ss: seq<string>)
    ensures StringifyArtist(VList(AsValues(ss))) == Ok(VStr(Join(NonEmpty(ss), ", ")))
  {
    var items := AsValues(ss);
    var parts := seq(|items|, i requires 0 <= i < |items| => StringifyArtist(items[i]));
    assert parts == OkStrs(ss);
    KeptOfStrings(ss);
    var kept := Kept(parts);
    assert kept == AsValues(NonEmpty(ss));
    assert seq(|kept|, i requires 0 <= i < |kept| => kept[i].s) == NonEmpty(ss);
  }

  lemma {:induction false} FirstRaisedDropNone(parts: seq<Result<Value>>)
    ensures FirstRaised(DropNone(parts)) == FirstRaised(parts)
    ensures Kept(DropNone(parts)) == Kept(parts)
  {
    if |parts| > 0 {
      FirstRaisedDropNone(parts[1..]);
      var head := if parts[0] == Ok(VNone) then [] else [parts[0]];
      assert DropNone(parts) == head + DropNone(parts[1..]);
      var d := DropNone(parts);
      if head != [] {
        assert d[0] == parts[0] && d[1..] == DropNone(parts[1..]);
        assert FirstRaised(d) == if parts[0].Raised? then Some(parts[0].error) else FirstRaised(d[1..]);
        assert Kept(d) == (if parts[0].Ok? && Truthy(parts[0].value) then [parts[0].value] else []) + Kept(d[1..]);
      } else {
        assert d == DropNone(parts[1..]);
        assert Kept(parts) == Kept(parts[1..]);
      }
    }
  }

  /** The two copies of `_stringify_artist` agree on every input. */
  lemma {:induction false} StringifyVariantsAgree(v: Value)
    ensures StringifyArtistMain(v) == StringifyArtist(v)
  {
    match v
    case VList(items) =>
      var a := seq(|items|, i requires 0 <= i < |items| => StringifyArtist(items[i]));
      var b := seq(|items|, i requires 0 <= i < |items| => StringifyArtistMain(items[i]));
      forall i | 0 <= i < |items| ensures b[i] == a[i] {
        StringifyVariantsAgree(items[i]);
      }
      assert a == b;
      FirstRaisedDropNone(b);
    case _ =>
  }
}
