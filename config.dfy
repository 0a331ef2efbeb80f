/**
 * The streamrip configuration as the web application edits it: a record of
 * sections, each a record of fields, updated from a JSON payload that may
 * only touch existing sections and existing keys, and exported as plain
 * dicts without the `toml` and `_modified` bookkeeping fields.
 */
module Config {
  import opened Common
  import opened Assoc
  import opened Values

  /**
   * A configuration value: a dataclass record (its fields in declaration
   * order), a list, or a plain value.
   */
  datatype Node =
    | Record(fields: seq<(string, Node)>)
    | List(items: seq<Node>)
    | Leaf(v: Value)

  /** The fields the export leaves out. */
  const Hidden: set<string> := {"toml", "_modified"}

  // ---------------------------------------------------------------------
  // Export

  /** `_dataclass_to_dict(obj)`: a record becomes a dict, anything else is returned as it is. */
  function Export(n: Node): Value
    decreases n, 0
  {
    match n
    case Record(fs) =>
      VDict(Visible(seq(|fs|, i requires 0 <= i < |fs| => assert fs[i] in fs; (fs[i].0, FieldValue(fs[i].1)))))
    case _ => Raw(n)
  }

  /** One field of a record in the export: records recurse, lists have each element exported, the rest is kept. */
  function FieldValue(n: Node): Value
    decreases n, 1
  {
    match n
    case Record(_) => Export(n)
    case List(xs) => VList(seq(|xs|, i requires 0 <= i < |xs| => assert xs[i] in xs; Export(xs[i])))
    case Leaf(v) => v
  }

  /**
   * An object the export returns without converting it: a plain value is
   * itself, a list holds its elements unconverted, and a record stands for
   * the dataclass object with all of its fields.
   */
  function Raw(n: Node): Value {
    match n
    case Leaf(v) => v
    case List(xs) => VList(seq(|xs|, i requires 0 <= i < |xs| => assert xs[i] in xs; Raw(xs[i])))
    case Record(fs) => VDict(seq(|fs|, i requires 0 <= i < |fs| => assert fs[i] in fs; (fs[i].0, Raw(fs[i].1))))
  }

  /** The entries whose key is not hidden, in order. */
  function Visible(d: Dict): (r: Dict)
    ensures forall x :: x in r <==> x in d && x.0 !in Hidden
  {
    if |d| == 0 then []
    else (if d[0].0 in Hidden then [] else [d[0]]) + Visible(d[1..])
  }

  /** Dropping entries keeps a dict real. */
  lemma {:induction false} VisibleUnique(d: Dict)
    requires UniqueKeys(d)
    ensures UniqueKeys(Visible(d))
  {
    if |d| > 0 {
      UniqueTail(d);
      VisibleUnique(d[1..]);
      var t := Visible(d[1..]);
      if d[0].0 !in Hidden {
        forall x | x in t ensures x.0 != d[0].0 {
          var i :| 1 <= i < |d| && d[i] == x;
        }
        ConsUnique(d[0], t);
      }
    }
  }

  /**
   * The export of a record has exactly its visible fields, each exported:
   * `toml` and `_modified` never appear, every other field does, nested
   * records become dicts and list elements are exported one by one.
   */
  lemma ExportRecord(fs: seq<(string, Node)>, k: string)
    requires UniqueKeys(fs)
    ensures var e := Export(Record(fs)).fields;
            && UniqueKeys(e)
            && (HasKey(e, k) <==> HasKey(fs, k) && k !in Hidden)
            && (HasKey(e, k) ==> Get(e, k) == Some(FieldValue(Get(fs, k).value)))
  {
    var all := seq(|fs|, i requires 0 <= i < |fs| => (fs[i].0, FieldValue(fs[i].1)));
    var e := Visible(all);
    assert Export(Record(fs)).fields == e;
    assert UniqueKeys(all);
    VisibleUnique(all);
    if HasKey(fs, k) && k !in Hidden {
      var i := IndexOf(fs, k);
      assert all[i] in e;
      GetMember(e, all[i]);
      HasKeyAt(fs, i);
      IndexOfIs(fs, k, i);
    }
    if HasKey(e, k) {
      var x := e[IndexOf(e, k)];
      assert x in all;
      var i :| 0 <= i < |all| && all[i] == x;
      IndexOfIs(fs, k, i);
      GetMember(e, x);
    }
  }

  /** Only records are converted: any other node is returned as it is. */
  lemma ExportPlain(n: Node)
    ensures !n.Record? ==> Export(n) == Raw(n)
    ensures n.Leaf? ==> Export(n) == n.v
    ensures Export(n).VDict? <==> n.Record? || (n.Leaf? && n.v.VDict?)
  {
  }

  // ---------------------------------------------------------------------
  // Update

  /** The loaded configuration file: its sections, and whether anything was set since it was read. */
  datatype ConfigState = ConfigState(sections: seq<(string, Node)>, modified: bool)

  /** The inner loop of `update`: every key the section has is set, and marks the file modified. */
  function ApplyKeys(fs: seq<(string, Node)>, modified: bool, values: Dict): (seq<(string, Node)>, bool)
    decreases |values|
  {
    if |values| == 0 then (fs, modified)
    else if HasKey(fs, values[0].0) then ApplyKeys(Set(fs, values[0].0, Leaf(values[0].1)), true, values[1..])
    else ApplyKeys(fs, modified, values[1..])
  }

  /** One section of `update`: a section the file lacks, or one that is not a record, is skipped. */
  function ApplySection(st: ConfigState, section: string, values: Dict): ConfigState {
    match Get<string, Node>(st.sections, section)
    case Some(Record(fs)) =>
      var (fs', m) := ApplyKeys(fs, st.modified, values);
      ConfigState(Set(st.sections, section, Record(fs')), m)
    case _ => st
  }

  /** `update(updates)` on the loaded file, section by section in the payload's order. */
  function ApplyUpdates(st: ConfigState, updates: seq<(string, Dict)>): ConfigState
    decreases |updates|
  {
    if |updates| == 0 then st
    else ApplyUpdates(ApplySection(st, updates[0].0, updates[0].1), updates[1..])
  }

  /** Some key of `values` is a field of the section. */
  predicate AppliesTo(fs: seq<(string, Node)>, values: Dict) {
    exists i :: 0 <= i < |values| && HasKey(fs, values[i].0)
  }

  /** Setting a key that is present keeps the keys, and a real dict real. */
  lemma SetPresent(fs: seq<(string, Node)>, k: string, n: Node)
    requires HasKey(fs, k)
    ensures Keys(Set(fs, k, n)) == Keys(fs)
    ensures forall k' :: HasKey(Set(fs, k, n), k') <==> HasKey(fs, k')
    ensures UniqueKeys(fs) ==> UniqueKeys(Set(fs, k, n))
  {
    SetKeys(fs, k, n);
    forall k' ensures HasKey(Set(fs, k, n), k') <==> HasKey(fs, k') {
      if k' == k {
        GetSetSame(fs, k, n);
      } else {
        GetSetOther(fs, k, n, k');
      }
    }
    if UniqueKeys(fs) {
      SetUnique(fs, k, n);
    }
  }

  /**
   * Inside a section, exactly the keys it already has are set: a key of the
   * payload that is a field gets the payload's value, every other field
   * keeps its value, no field is added, and the file is marked modified
   * exactly when it already was or some key applied.
   */
  lemma {:induction false} ApplyKeysSpec(fs: seq<(string, Node)>, modified: bool, values: Dict)
    requires UniqueKeys(values)
    ensures var (fs', m) := ApplyKeys(fs, modified, values);
            && Keys(fs') == Keys(fs)
            && (UniqueKeys(fs) ==> UniqueKeys(fs'))
            && (m <==> modified || AppliesTo(fs, values))
            && forall k :: Get(fs', k) == if HasKey(fs, k) && HasKey(values, k) then Some(Leaf(Get(values, k).value)) else Get(fs, k)
    decreases |values|
  {
    if |values| > 0 {
      var k0, v0 := values[0].0, values[0].1;
      var rest := values[1..];
      DictTail(values);
      var fs1 := if HasKey(fs, k0) then Set(fs, k0, Leaf(v0)) else fs;
      var m1 := if HasKey(fs, k0) then true else modified;
      assert ApplyKeys(fs, modified, values) == ApplyKeys(fs1, m1, rest);
      ApplyKeysSpec(fs1, m1, rest);
      SetStep(fs, k0, v0);
      AppliesCons(fs, fs1, values);
    }
  }

  /** The first entry of a real dict and the rest of it. */
  lemma DictTail(values: Dict)
    requires UniqueKeys(values) && |values| > 0
    ensures UniqueKeys(values[1..]) && !HasKey(values[1..], values[0].0)
    ensures Get(values, values[0].0) == Some(values[0].1)
    ensures forall k :: HasKey(values, k) <==> k == values[0].0 || HasKey(values[1..], k)
    ensures forall k :: HasKey(values[1..], k) ==> Get(values, k) == Get(values[1..], k)
  {
    var rest := values[1..];
    UniqueTail(values);
    IndexOfIs(values, values[0].0, 0);
    forall k ensures HasKey(values, k) <==> k == values[0].0 || HasKey(rest, k) {
      if HasKey(values, k) && k != values[0].0 {
        var i :| 0 <= i < |values| && values[i].0 == k;
        assert rest[i - 1] == values[i];
      }
      if HasKey(rest, k) {
        var i :| 0 <= i < |rest| && rest[i].0 == k;
        assert values[i + 1] == rest[i];
      }
    }
    forall k | HasKey(rest, k) ensures Get(values, k) == Get(rest, k) {
      var i := IndexOf(rest, k);
      IndexOfIs(values, k, i + 1);
    }
  }

  /** One step of the key loop: a present key takes the new value, nothing else changes. */
  lemma SetStep(fs: seq<(string, Node)>, k0: string, v0: Value)
    ensures var fs1 := if HasKey(fs, k0) then Set(fs, k0, Leaf(v0)) else fs;
            && Keys(fs1) == Keys(fs)
            && (UniqueKeys(fs) ==> UniqueKeys(fs1))
            && (forall k :: HasKey(fs1, k) == HasKey(fs, k))
            && (HasKey(fs, k0) ==> Get(fs1, k0) == Some(Leaf(v0)))
            && (forall k :: k != k0 ==> Get(fs1, k) == Get(fs, k))
  {
    if HasKey(fs, k0) {
      SetPresent(fs, k0, Leaf(v0));
      GetSetSame(fs, k0, Leaf(v0));
      forall k | k != k0 ensures Get(Set(fs, k0, Leaf(v0)), k) == Get(fs, k) {
        GetSetOther(fs, k0, Leaf(v0), k);
      }
    }
  }

  lemma AppliesCons(fs: seq<(string, Node)>, fs1: seq<(string, Node)>, values: Dict)
    requires |values| > 0
    requires forall k :: HasKey(fs1, k) == HasKey(fs, k)
    ensures AppliesTo(fs, values) <==> HasKey(fs, values[0].0) || AppliesTo(fs1, values[1..])
  {
    if AppliesTo(fs, values) && !HasKey(fs, values[0].0) {
      var i :| 0 <= i < |values| && HasKey(fs, values[i].0);
      assert values[1..][i - 1] == values[i];
    }
    if AppliesTo(fs1, values[1..]) {
      var i :| 0 <= i < |values| - 1 && HasKey(fs1, values[1..][i].0);
      assert values[i + 1] == values[1..][i];
    }
  }

  /** A section the file does not have, or one that is not a record, changes nothing. */
  lemma SkippedSections(st: ConfigState, section: string, values: Dict)
    ensures !HasKey(st.sections, section) ==> ApplySection(st, section, values) == st
    ensures HasKey(st.sections, section) && !Get(st.sections, section).value.Record? ==> ApplySection(st, section, values) == st
  {
  }

  /**
   * Applying one section keeps the file's sections and every other
   * section's value; the section itself is updated key by key as
   * `ApplyKeysSpec` states.
   */
  lemma ApplySectionSpec(st: ConfigState, section: string, values: Dict)
    requires UniqueKeys(values)
    ensures var st' := ApplySection(st, section, values);
            && Keys(st'.sections) == Keys(st.sections)
            && (UniqueKeys(st.sections) ==> UniqueKeys(st'.sections))
            && (forall s :: s != section ==> Get(st'.sections, s) == Get(st.sections, s))
            && (st'.modified <==> st.modified || (Get(st.sections, section).Some? && Get(st.sections, section).value.Record? &&
                                                AppliesTo(Get(st.sections, section).value.fields, values)))
            && (Get(st.sections, section).Some? && Get(st.sections, section).value.Record? ==>
                  Get(st'.sections, section) == Some(Record(ApplyKeys(Get(st.sections, section).value.fields, st.modified, values).0)))
  {
    match Get<string, Node>(st.sections, section)
    case Some(Record(fs)) =>
      ApplyKeysSpec(fs, st.modified, values);
      var fs' := ApplyKeys(fs, st.modified, values).0;
      SetPresent(st.sections, section, Record(fs'));
      GetSetSame(st.sections, section, Record(fs'));
      forall s | s != section ensures Get(Set(st.sections, section, Record(fs')), s) == Get(st.sections, s) {
        GetSetOther(st.sections, section, Record(fs'), s);
      }
    case _ =>
  }

  /** The sections an update names. */
  predicate Names(updates: seq<(string, Dict)>, s: string) {
    exists i :: 0 <= i < |updates| && updates[i].0 == s
  }

  /**
   * `update` adds no section, leaves every section it does not name as it
   * was, keeps the file a real dict, and never clears the modified mark.
   */
  lemma {:induction false} ApplyUpdatesFrame(st: ConfigState, updates: seq<(string, Dict)>)
    requires forall i :: 0 <= i < |updates| ==> UniqueKeys(updates[i].1)
    ensures var st' := ApplyUpdates(st, updates);
            && Keys(st'.sections) == Keys(st.sections)
            && (UniqueKeys(st.sections) ==> UniqueKeys(st'.sections))
            && (forall s :: !Names(updates, s) ==> Get(st'.sections, s) == Get(st.sections, s))
            && (st.modified ==> st'.modified)
    decreases |updates|
  {
    if |updates| > 0 {
      var st1 := ApplySection(st, updates[0].0, updates[0].1);
      ApplySectionSpec(st, updates[0].0, updates[0].1);
      ApplyUpdatesFrame(st1, updates[1..]);
      forall s | !Names(updates, s) ensures !Names(updates[1..], s) {
        forall i | 0 <= i < |updates| - 1 ensures updates[1..][i].0 != s {
          assert updates[1..][i] == updates[i + 1];
        }
      }
    }
  }

  /** An update with one section sets exactly the payload's keys that the section has. */
  lemma UpdateOneSection(st: ConfigState, section: string, values: Dict, k: string)
    requires UniqueKeys(values)
    requires HasKey(st.sections, section) && Get(st.sections, section).value.Record?
    ensures var fs := Get(st.sections, section).value.fields;
            var st' := ApplyUpdates(st, [(section, values)]);
            && Get(st'.sections, section).Some? && Get(st'.sections, section).value.Record?
            && Get(Get(st'.sections, section).value.fields, k) ==
                 (if HasKey(fs, k) && HasKey(values, k) then Some(Leaf(Get(values, k).value)) else Get(fs, k))
            && (st'.modified <==> st.modified || AppliesTo(fs, values))
  {
    var fs := Get(st.sections, section).value.fields;
    assert ApplyUpdates(st, [(section, values)]) == ApplySection(st, section, values);
    ApplySectionSpec(st, section, values);
    ApplyKeysSpec(fs, st.modified, values);
  }

  /** A key set by `update` shows its new value in the export `update` returns. */
  lemma ExportAfterUpdate(st: ConfigState, section: string, values: Dict, k: string)
    requires UniqueKeys(st.sections) && UniqueKeys(values)
    requires section !in Hidden && k !in Hidden
    requires HasKey(st.sections, section) && Get(st.sections, section).value.Record?
    requires UniqueKeys(Get(st.sections, section).value.fields)
    requires HasKey(Get(st.sections, section).value.fields, k) && HasKey(values, k)
    ensures var e := Export(Record(ApplyUpdates(st, [(section, values)]).sections)).fields;
            && Get(e, section).Some? && Get(e, section).value.VDict?
            && Get(Get(e, section).value.fields, k) == Some(Get(values, k).value)
  {
    var fs := Get(st.sections, section).value.fields;
    var st' := ApplyUpdates(st, [(section, values)]);
    var st1 := ApplySection(st, section, values);
    assert [(section, values)][1..] == [];
    assert ApplyUpdates(st1, []) == st1;
    assert st' == st1;
    ApplySectionSpec(st, section, values);
    ApplyKeysSpec(fs, st.modified, values);
    var fs' := ApplyKeys(fs, st.modified, values).0;
    ExportRecord(st'.sections, section);
    ExportRecord(fs', k);
  }

  /** The manager of the configuration file, holding the file as loaded. */
  class ConfigManager {
    var sections: seq<(string, Node)>
    var modified: bool

    function State(): ConfigState
      reads this
    {
      ConfigState(sections, modified)
    }

    constructor(loaded: seq<(string, Node)>)
      ensures State() == ConfigState(loaded, false)
    {
      sections := loaded;
      modified := false;
    }

    /** `export()`. */
    function Exported(): Value
      reads this
    {
      Export(Record(sections))
    }

    /** `update(updates)`: apply the payload, then return the export of the result. */
    method Update(updates: seq<(string, Dict)>) returns (snapshot: Value)
      modifies this
      ensures State() == ApplyUpdates(old(State()), updates)
      ensures snapshot == Exported()
    {
      var i := 0;
      while i < |updates|
        invariant 0 <= i <= |updates|
        invariant ApplyUpdates(old(State()), updates) == ApplyUpdates(State(), updates[i..])
      {
        var (section, values) := updates[i];
        assert ApplyUpdates(State(), updates[i..]) == ApplyUpdates(ApplySection(State(), section, values), updates[i + 1..]);
        match Get<string, Node>(sections, section) {
          case Some(Record(fs)) =>
            var fs' := UpdateSection(fs, values);
            sections := Set(sections, section, Record(fs'));
          case _ =>
        }
        i := i + 1;
      }
      snapshot := Export(Record(sections));
    }

    /** The loop over one section's keys. */
    method UpdateSection(fs: seq<(string, Node)>, values: Dict) returns (fs': seq<(string, Node)>)
      modifies this
      ensures (fs', modified) == ApplyKeys(fs, old(modified), values)
      ensures sections == old(sections)
    {
      fs' := fs;
      var j := 0;
      while j < |values|
        invariant 0 <= j <= |values|
        invariant sections == old(sections)
        invariant ApplyKeys(fs, old(modified), values) == ApplyKeys(fs', modified, values[j..])
      {
        assert values[j..][1..] == values[j + 1..];
        var (key, v) := values[j];
        if HasKey(fs', key) {
          fs' := Set(fs', key, Leaf(v));
          modified := true;
        }
        j := j + 1;
      }
    }
  }
}
