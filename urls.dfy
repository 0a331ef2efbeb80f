/**
 * `enqueue_urls`: every pasted URL becomes an entry tagged `lastfm` (its
 * `://last.fm` rewritten to `://www.last.fm`) or `url`, and the batch goes
 * through `enqueue`. The host `urlparse` extracts is an input of the model.
 */
module Urls {
  import opened Common
  import opened Assoc
  import opened Values
  import opened Artists
  import opened Queue

  /** `str.lower()` on the ASCII letters a host name is written in. */
  function LowerChar(c: char): char {
    if 'A' <= c <= 'Z' then (c as int + 32) as char else c
  }

  function Lower(s: string): (r: string)
    ensures |r| == |s|
    ensures forall i :: 0 <= i < |s| ==> r[i] == LowerChar(s[i])
  {
    seq(|s|, i requires 0 <= i < |s| => LowerChar(s[i]))
  }

  /** `_is_lastfm_url`, given `parsed.hostname or ""`. */
  predicate IsLastfmHost(host: string) {
    var h := Lower(host);
    h == "www.last.fm" || h == "last.fm"
  }

  /** The host test ignores case: a host and its lower-cased form are judged alike. */
  lemma LastfmHostIgnoresCase(host: string)
    ensures IsLastfmHost(host) <==> IsLastfmHost(Lower(host))
    ensures IsLastfmHost(host) ==> |host| == 7 || |host| == 11
  {
    assert Lower(Lower(host)) == Lower(host);
  }

  /** `pat` occurs in `s` at `i`. */
  predicate OccursAt(s: string, pat: string, i: nat) {
    i + |pat| <= |s| && s[i..i + |pat|] == pat
  }

  /** The first index, from `from` on, at which `pat` occurs in `s`. */
  function FindFrom(s: string, pat: string, from: nat): (r: Option<nat>)
    requires from <= |s|
    ensures r.Some? ==> from <= r.value && OccursAt(s, pat, r.value)
    ensures forall j :: from <= j && (r.None? || j < r.value) ==> !OccursAt(s, pat, j)
    decreases |s| - from
  {
    if from + |pat| > |s| then None
    else if s[from..from + |pat|] == pat then Some(from)
    else if from == |s| then None
    else FindFrom(s, pat, from + 1)
  }

  /** `s.find(pat)`, as an option. */
  function Find(s: string, pat: string): Option<nat> {
    FindFrom(s, pat, 0)
  }

  /** `s.replace(pat, rep, 1)`. */
  function ReplaceFirst(s: string, pat: string, rep: string): string {
    match Find(s, pat)
    case None => s
    case Some(i) => s[..i] + rep + s[i + |pat|..]
  }

  /** The `normalized_url` of `enqueue_urls`. */
  function NormalizedUrl(url: string, host: string): string {
    if IsLastfmHost(host) && Find(url, "://last.fm").Some? then ReplaceFirst(url, "://last.fm", "://www.last.fm")
    else url
  }

  /** `"lastfm"` for a last.fm URL, else `"url"`: both the source and the media type. */
  function Tag(host: string): string {
    if IsLastfmHost(host) then "lastfm" else "url"
  }

  /** The entry `enqueue_urls` builds for one URL. */
  function UrlEntry(url: string, host: string): Value {
    var n := VStr(NormalizedUrl(url, host));
    VDict([("source", VStr(Tag(host))), ("media_type", VStr(Tag(host))),
           ("id", n), ("title", n), ("url", n)])
  }

  function UrlEntries(urls: seq<string>, hostOf: string -> string): (entries: seq<Value>)
    ensures |entries| == |urls|
    ensures forall i :: 0 <= i < |urls| ==> entries[i] == UrlEntry(urls[i], hostOf(urls[i]))
  {
    seq(|urls|, i requires 0 <= i < |urls| => UrlEntry(urls[i], hostOf(urls[i])))
  }

  /**
   * Only a last.fm URL that spells `://last.fm` is rewritten: its first
   * `://last.fm` becomes `://www.last.fm`, four characters longer, and
   * everything around it stays. Any other URL is kept as it is.
   */
  lemma NormalizedUrlSpec(url: string, host: string)
    ensures var r := NormalizedUrl(url, host);
            && (!IsLastfmHost(host) ==> r == url)
            && (Find(url, "://last.fm").None? ==> r == url)
            && (IsLastfmHost(host) && Find(url, "://last.fm").Some? ==>
                  var i := Find(url, "://last.fm").value;
                  && |r| == |url| + 4
                  && r[..i] == url[..i]
                  && r[i..i + 14] == "://www.last.fm"
                  && r[i + 14..] == url[i + 10..]
                  && (forall j: nat :: j < i ==> !OccursAt(url, "://last.fm", j)))
  {
  }

  /** A rewritten last.fm URL no longer spells `://last.fm` where it used to. */
  lemma NormalizedDropsBareHost(url: string, host: string)
    requires IsLastfmHost(host) && Find(url, "://last.fm").Some?
    ensures !OccursAt(NormalizedUrl(url, host), "://last.fm", Find(url, "://last.fm").value)
  {
    var i := Find(url, "://last.fm").value;
    var r := NormalizedUrl(url, host);
    NormalizedUrlSpec(url, host);
    assert r[i + 3] == 'w';
  }

  /** A URL entry carries everything `enqueue` reads, and no artist. */
  lemma UrlEntryFields(url: string, host: string)
    ensures var e := UrlEntry(url, host);
            && Identified(e) && HasKey(e.fields, "media_type")
            && Lookup(e.fields, "source") == VStr(Tag(host))
            && Lookup(e.fields, "id") == VStr(NormalizedUrl(url, host))
            && StringifyArtist(Lookup(e.fields, "artist")).Ok?
  {
    var d := UrlEntry(url, host).fields;
    HasKeyAt(d, 0);
    HasKeyAt(d, 1);
    HasKeyAt(d, 2);
    IndexOfIs(d, "source", 0);
    IndexOfIs(d, "id", 2);
    assert !HasKey(d, "artist");
  }

  /** `enqueue_urls` never raises: every URL entry is enqueued or matches a queued job. */
  lemma {:induction false} UrlEnqueueNeverRaises(w: World, urls: seq<string>, hostOf: string -> string)
    ensures EnqueueAll(w, UrlEntries(urls, hostOf)).error == None
    decreases |urls|
  {
    if |urls| > 0 {
      var entries := UrlEntries(urls, hostOf);
      UrlEntryFields(urls[0], hostOf(urls[0]));
      EnqueueRaisesIff(w, entries[0]);
      var w' := EnqueueEntry(w, entries[0]).value;
      assert entries[1..] == UrlEntries(urls[1..], hostOf);
      UrlEnqueueNeverRaises(w', urls[1..], hostOf);
    }
  }
}
