/**
 * The pedigree (graph.py:1-27): each record names a child and its two
 * parents. The pedigree keeps, for every parent, the list of its children in
 * the order the records arrive, and for every child its pair of parents.
 */
module Pedigrees {
  import opened Wrappers
  import opened LineFormat
  import opened Lineage

  /** One pedigree line: a child and its left and right parents. */
  datatype Record = Record(child: int, left: int, right: int)

  datatype IngestError =
    | NotAnInteger(field: string)   // `int(...)` rejects a field
    | WrongFieldCount(count: nat)   // the line does not hold exactly three fields
    | DuplicateChild(child: int)    // the child already has a record

  /** parent label -> its children, in the order they were added (the pedigree's `children_map`). */
  type ChildrenMap = map<int, seq<int>>

  function ChildrenOf(cm: ChildrenMap, p: int): seq<int> {
    if p in cm then cm[p] else []
  }

  /** `children_map` after `add_child(parent, child)`. */
  function AddChildTo(cm: ChildrenMap, parent: int, child: int): (r: ChildrenMap)
    ensures r.Keys == cm.Keys + {parent}
    ensures r[parent] == ChildrenOf(cm, parent) + [child]
    ensures forall p :: p in cm && p != parent ==> r[p] == cm[p]
  {
    cm[parent := ChildrenOf(cm, parent) + [child]]
  }

  /** `children_map` after both `add_child` calls of a record. */
  function AddRecordChildren(cm: ChildrenMap, r: Record): ChildrenMap {
    AddChildTo(AddChildTo(cm, r.left, r.child), r.right, r.child)
  }

  /**
   * The fields converted left to right; the first field the conversion
   * rejects is the error.
   */
  function ConvertAll(fields: seq<string>, toInt: string -> Option<int>): (r: Result<seq<int>, IngestError>)
    ensures r.Success? <==> forall i :: 0 <= i < |fields| ==> toInt(fields[i]).Some?
    ensures r.Success? ==> |r.value| == |fields| && forall i :: 0 <= i < |fields| ==> toInt(fields[i]) == Some(r.value[i])
    ensures r.Failure? ==>
      exists i :: 0 <= i < |fields| && r.error == NotAnInteger(fields[i]) && toInt(fields[i]).None? &&
        (forall j :: 0 <= j < i ==> toInt(fields[j]).Some?)
  {
    if fields == [] then Success([])
    else match toInt(fields[0])
      case None => Failure(NotAnInteger(fields[0]))
      case Some(n) =>
        match ConvertAll(fields[1..], toInt)
        case Failure(e) =>
          assert forall i :: 1 <= i < |fields| ==> fields[i] == fields[1..][i - 1];
          Failure(e)
        case Success(ns) =>
          assert forall i :: 1 <= i < |fields| ==> fields[i] == fields[1..][i - 1];
          Success([n] + ns)
  }

  /** The fields of a line: newlines stripped from both ends, then split on single spaces. */
  function Fields(line: string): seq<string> {
    Split(StripNewlines(line), ' ')
  }

  /**
   * Parsing one line (graph.py:13): every field is converted first, then the
   * result must hold exactly three numbers. `toInt` stands for Python's
   * `int(str(...))`.
   */
  function ParseLine(line: string, toInt: string -> Option<int>): (r: Result<Record, IngestError>)
    ensures var fields := Fields(line);
      r.Success? <==> |fields| == 3 && forall i :: 0 <= i < 3 ==> toInt(fields[i]).Some?
    ensures var fields := Fields(line);
      r.Success? ==>
        toInt(fields[0]) == Some(r.value.child) &&
        toInt(fields[1]) == Some(r.value.left) &&
        toInt(fields[2]) == Some(r.value.right)
    ensures var fields := Fields(line);
      r.Failure? && r.error.WrongFieldCount? ==>
        r.error.count == |fields| != 3 && forall i :: 0 <= i < |fields| ==> toInt(fields[i]).Some?
    ensures var fields := Fields(line);
      r.Failure? && r.error.NotAnInteger? ==>
        exists i :: 0 <= i < |fields| && r.error.field == fields[i] && toInt(fields[i]).None? &&
          (forall j :: 0 <= j < i ==> toInt(fields[j]).Some?)
    ensures r.Failure? ==> !r.error.DuplicateChild?
  {
    var fields := Fields(line);
    match ConvertAll(fields, toInt)
    case Failure(e) => Failure(e)
    case Success(ns) =>
      if |ns| != 3 then Failure(WrongFieldCount(|ns|))
      else Success(Record(ns[0], ns[1], ns[2]))
  }

  /** A record written as its three numbers separated by single spaces and ended by a newline. */
  function FormatLine(rec: Record, show: int -> string): string {
    Join([show(rec.child), show(rec.left), show(rec.right)], ' ') + "\n"
  }

  /** Parsing a formatted record gives the record back, for any spelling of numbers that parses back and holds no space or newline. */
  lemma ParseFormatLine(rec: Record, show: int -> string, toInt: string -> Option<int>)
    requires forall n :: toInt(show(n)) == Some(n) && ' ' !in show(n) && '\n' !in show(n)
    ensures ParseLine(FormatLine(rec, show), toInt) == Success(rec)
  {
    var a, b, c := show(rec.child), show(rec.left), show(rec.right);
    assert toInt(a) == Some(rec.child) && ' ' !in a && '\n' !in a;
    assert toInt(b) == Some(rec.left) && ' ' !in b && '\n' !in b;
    assert toInt(c) == Some(rec.right) && ' ' !in c && '\n' !in c;
    FieldsOfFormatLine(rec, show, a, b, c);
    ParseThreeFields(FormatLine(rec, show), toInt, rec, a, b, c);
  }

  /** A line whose fields are three spellings of the record's numbers parses to the record. */
  lemma ParseThreeFields(line: string, toInt: string -> Option<int>, rec: Record, a: string, b: string, c: string)
    requires Fields(line) == [a, b, c]
    requires toInt(a) == Some(rec.child) && toInt(b) == Some(rec.left) && toInt(c) == Some(rec.right)
    ensures ParseLine(line, toInt) == Success(rec)
  {
    var fields := [a, b, c];
    assert toInt(fields[0]) == Some(rec.child) && toInt(fields[1]) == Some(rec.left) && toInt(fields[2]) == Some(rec.right);
    var r := ParseLine(line, toInt);
    assert r.Success?;
  }

  /** The fields of a formatted record are the three spellings. */
  lemma FieldsOfFormatLine(rec: Record, show: int -> string, a: string, b: string, c: string)
    requires a == show(rec.child) && b == show(rec.left) && c == show(rec.right)
    requires ' ' !in a && '\n' !in a && ' ' !in b && '\n' !in b && ' ' !in c && '\n' !in c
    ensures Fields(FormatLine(rec, show)) == [a, b, c]
  {
    var parts := [a, b, c];
    var text := Join(parts, ' ');
    JoinThree(parts, ' ');
    assert forall k :: 0 <= k < |parts| ==> ' ' !in parts[k];
    assert '\n' !in text;
    StripNewlineEnd(text);
    SplitJoin(parts, ' ');
  }

  lemma JoinThree(parts: seq<string>, sep: char)
    requires |parts| == 3
    ensures Join(parts, sep) == parts[0] + [sep] + (parts[1] + [sep] + parts[2])
  {
    var tail := parts[1..];
    assert tail[1..] == [parts[2]];
    assert Join(tail, sep) == tail[0] + [sep] + Join(tail[1..], sep);
  }

  /** Stripping newlines from a newline-free text followed by one newline gives the text. */
  lemma StripNewlineEnd(text: string)
    requires '\n' !in text
    ensures StripNewlines(text + "\n") == text
  {
    var s := text + "\n";
    if text == [] {
      assert StripLeading(s) == [];
    } else {
      assert s[0] == text[0];
      assert StripLeading(s) == s;
      assert s[..|s| - 1] == text;
      assert StripTrailing(s) == StripTrailing(text);
    }
  }

  /** How many times `p` is recorded as a parent of `c` (twice when both parents are `p`). */
  function Occurrences(pm: ParentsMap, c: int, p: int): nat {
    if c in pm then (if pm[c].left == p then 1 else 0) + (if pm[c].right == p then 1 else 0) else 0
  }

  /**
   * The two maps describe the same records: every recorded parent has a
   * children list, and each list holds a child exactly as many times as the
   * child names that parent.
   */
  ghost predicate Consistent(cm: ChildrenMap, pm: ParentsMap) {
    (forall c :: c in pm ==> pm[c].left in cm && pm[c].right in cm) &&
    (forall p :: p in cm ==> cm[p] != []) &&
    (forall p, c :: p in cm ==> multiset(cm[p])[c] == Occurrences(pm, c, p))
  }

  lemma ChildrenOfAdd(cm: ChildrenMap, q: int, x: int, p: int)
    ensures ChildrenOf(AddChildTo(cm, q, x), p) == ChildrenOf(cm, p) + (if p == q then [x] else [])
  {
  }

  /** Adding the record of a new child keeps the two maps consistent. */
  lemma AddRecordConsistent(cm: ChildrenMap, pm: ParentsMap, r: Record)
    requires Consistent(cm, pm) && r.child !in pm
    ensures Consistent(AddRecordChildren(cm, r), pm[r.child := Parents(r.left, r.right)])
  {
    var cm' := AddRecordChildren(cm, r);
    var pm' := pm[r.child := Parents(r.left, r.right)];
    forall p, c | p in cm' ensures multiset(cm'[p])[c] == Occurrences(pm', c, p) {
      RecordCount(cm, pm, r, p, c);
    }
  }

  /** How often `c` is listed under `p` once the record of a new child is added. */
  lemma RecordCount(cm: ChildrenMap, pm: ParentsMap, r: Record, p: int, c: int)
    requires Consistent(cm, pm) && r.child !in pm
    ensures multiset(ChildrenOf(AddRecordChildren(cm, r), p))[c] ==
      Occurrences(pm[r.child := Parents(r.left, r.right)], c, p)
  {
    var cm1 := AddChildTo(cm, r.left, r.child);
    ChildrenOfAdd(cm, r.left, r.child, p);
    ChildrenOfAdd(cm1, r.right, r.child, p);
    var before := ChildrenOf(cm, p);
    var after := before + (if p == r.left then [r.child] else []) + (if p == r.right then [r.child] else []);
    assert ChildrenOf(AddRecordChildren(cm, r), p) == after;
    assert multiset(before)[c] == Occurrences(pm, c, p) by {
      if p !in cm {
        assert c in pm ==> pm[c].left != p && pm[c].right != p;
      }
    }
    assert multiset(after)[c] == multiset(before)[c] +
      (if p == r.left && c == r.child then 1 else 0) + (if p == r.right && c == r.child then 1 else 0);
  }

  /** Records are ingested in order; the first record naming a child that already has parents stops ingestion. */
  function IngestAll(cm: ChildrenMap, pm: ParentsMap, records: seq<Record>): (ChildrenMap, ParentsMap, Outcome<IngestError>)
    decreases |records|
  {
    if records == [] then (cm, pm, Pass)
    else
      var r := records[0];
      var cm' := AddRecordChildren(cm, r);
      if r.child in pm then (cm', pm, Fail(DuplicateChild(r.child)))
      else IngestAll(cm', pm[r.child := Parents(r.left, r.right)], records[1..])
  }

  /** No record names a child that already has parents or that an earlier record names. */
  predicate NewChildren(pm: ParentsMap, records: seq<Record>) {
    (forall i :: 0 <= i < |records| ==> records[i].child !in pm) &&
    (forall i, j :: 0 <= i < j < |records| ==> records[i].child != records[j].child)
  }

  /** Ingestion succeeds exactly when every child is new, and otherwise names a child of the records. */
  lemma {:induction false} IngestAllOutcome(cm: ChildrenMap, pm: ParentsMap, records: seq<Record>)
    ensures var outcome := IngestAll(cm, pm, records).2;
      && (outcome.Pass? <==> NewChildren(pm, records))
      && (outcome.Fail? ==> exists i :: 0 <= i < |records| && outcome.error == DuplicateChild(records[i].child))
    decreases |records|
  {
    if records != [] && records[0].child !in pm {
      var r, rest := records[0], records[1..];
      var pm1 := pm[r.child := Parents(r.left, r.right)];
      IngestAllOutcome(AddRecordChildren(cm, r), pm1, rest);
      var outcome := IngestAll(cm, pm, records).2;
      assert outcome == IngestAll(AddRecordChildren(cm, r), pm1, rest).2;
      NewChildrenStep(pm, records);
      if outcome.Fail? {
        var i :| 0 <= i < |rest| && outcome.error == DuplicateChild(rest[i].child);
        assert records[i + 1] == rest[i];
      }
    }
  }

  /** Every child new for `pm` exactly when the first is and the rest are new once it is recorded. */
  lemma NewChildrenStep(pm: ParentsMap, records: seq<Record>)
    requires records != []
    ensures NewChildren(pm, records) <==>
      records[0].child !in pm &&
      NewChildren(pm[records[0].child := Parents(records[0].left, records[0].right)], records[1..])
  {
    var r, rest := records[0], records[1..];
    var pm1 := pm[r.child := Parents(r.left, r.right)];
    assert forall i :: 0 <= i < |rest| ==> rest[i] == records[i + 1];
    if r.child !in pm && NewChildren(pm1, rest) {
      forall i | 0 <= i < |records| ensures records[i].child !in pm {
        if i > 0 { assert records[i].child !in pm1; }
      }
      forall i, j | 0 <= i < j < |records| ensures records[i].child != records[j].child {
        if i == 0 { assert records[j].child !in pm1; } else { assert rest[i - 1].child != rest[j - 1].child; }
      }
    }
    if NewChildren(pm, records) {
      forall i | 0 <= i < |rest| ensures rest[i].child !in pm1 {
        assert records[0].child != records[i + 1].child;
      }
      forall i, j | 0 <= i < j < |rest| ensures rest[i].child != rest[j].child {
        assert records[i + 1].child != records[j + 1].child;
      }
    }
  }

  /**
   * After a successful ingestion every record's child has the parents the
   * record states, the children with records are exactly the earlier ones
   * and the new ones, and earlier entries are kept.
   */
  lemma {:induction false} IngestAllParents(cm: ChildrenMap, pm: ParentsMap, records: seq<Record>)
    requires IngestAll(cm, pm, records).2.Pass?
    ensures var pm' := IngestAll(cm, pm, records).1;
      && (forall c :: c in pm' <==> c in pm || exists i :: 0 <= i < |records| && records[i].child == c)
      && (forall c :: c in pm ==> pm'[c] == pm[c])
      && (forall i :: 0 <= i < |records| ==>
            records[i].child in pm' && pm'[records[i].child] == Parents(records[i].left, records[i].right))
    decreases |records|
  {
    if records != [] {
      var r, rest := records[0], records[1..];
      var cm1 := AddRecordChildren(cm, r);
      var pm1 := pm[r.child := Parents(r.left, r.right)];
      assert IngestAll(cm, pm, records) == IngestAll(cm1, pm1, rest);
      IngestAllParents(cm1, pm1, rest);
      var pm' := IngestAll(cm, pm, records).1;
      assert forall i :: 0 <= i < |rest| ==> rest[i] == records[i + 1];
      forall c | c in pm' ensures c in pm || exists i :: 0 <= i < |records| && records[i].child == c {
        if c !in pm && c != r.child {
          var i :| 0 <= i < |rest| && rest[i].child == c;
          assert records[i + 1].child == c;
        }
      }
      forall c | (exists i :: 0 <= i < |records| && records[i].child == c) ensures c in pm' {
        var i :| 0 <= i < |records| && records[i].child == c;
        if i > 0 { assert rest[i - 1].child == c; }
      }
      forall i | 0 <= i < |records|
        ensures records[i].child in pm' && pm'[records[i].child] == Parents(records[i].left, records[i].right)
      {
        if i > 0 { assert records[i] == rest[i - 1]; }
      }
    }
  }

  /** A successful ingestion keeps the two maps consistent. */
  lemma {:induction false} IngestAllConsistent(cm: ChildrenMap, pm: ParentsMap, records: seq<Record>)
    requires Consistent(cm, pm) && IngestAll(cm, pm, records).2.Pass?
    ensures Consistent(IngestAll(cm, pm, records).0, IngestAll(cm, pm, records).1)
    decreases |records|
  {
    if records != [] {
      var r := records[0];
      AddRecordConsistent(cm, pm, r);
      IngestAllConsistent(AddRecordChildren(cm, r), pm[r.child := Parents(r.left, r.right)], records[1..]);
    }
  }

  /** A parents-and-children record of a pedigree, updated in place as lines are added. */
  class Pedigree {
    var childrenMap: ChildrenMap
    var parentsMap: ParentsMap

    constructor ()
      ensures childrenMap == map[] && parentsMap == map[]
    {
      childrenMap := map[];
      parentsMap := map[];
    }

    /** Appends `child` to the end of `parent`'s children list, creating the list when `parent` has none. */
    method AddChild(parent: int, child: int)
      modifies this
      ensures childrenMap == AddChildTo(old(childrenMap), parent, child)
      ensures parentsMap == old(parentsMap)
    {
      if parent in childrenMap {
        childrenMap := childrenMap[parent := childrenMap[parent] + [child]];
      } else {
        assert ChildrenOf(childrenMap, parent) + [child] == [child];
        childrenMap := childrenMap[parent := [child]];
      }
    }

    /**
     * Adds one parsed record (graph.py:14-18). The child is appended to both
     * parents' lists before the duplicate check, so a duplicate child leaves
     * those appends in place and `parentsMap` as it was.
     */
    method AddRecord(r: Record) returns (outcome: Outcome<IngestError>)
      modifies this
      ensures childrenMap == AddRecordChildren(old(childrenMap), r)
      ensures outcome.Pass? <==> r.child !in old(parentsMap)
      ensures outcome.Fail? ==> outcome.error == DuplicateChild(r.child) && parentsMap == old(parentsMap)
      ensures outcome.Pass? ==> parentsMap == old(parentsMap)[r.child := Parents(r.left, r.right)]
    {
      AddChild(r.left, r.child);
      AddChild(r.right, r.child);
      if r.child in parentsMap {
        return Fail(DuplicateChild(r.child));
      }
      parentsMap := parentsMap[r.child := Parents(r.left, r.right)];
      return Pass;
    }

    /** `add_line_from_pedigree`: a line that does not parse changes nothing. */
    method AddLineFromPedigree(line: string, toInt: string -> Option<int>) returns (outcome: Outcome<IngestError>)
      modifies this
      ensures ParseLine(line, toInt).Failure? ==>
        outcome == Fail(ParseLine(line, toInt).error) &&
        childrenMap == old(childrenMap) && parentsMap == old(parentsMap)
      ensures ParseLine(line, toInt).Success? ==>
        var r := ParseLine(line, toInt).value;
        && childrenMap == AddRecordChildren(old(childrenMap), r)
        && (outcome.Pass? <==> r.child !in old(parentsMap))
        && (outcome.Fail? ==> outcome.error == DuplicateChild(r.child) && parentsMap == old(parentsMap))
        && (outcome.Pass? ==> parentsMap == old(parentsMap)[r.child := Parents(r.left, r.right)])
    {
      var parsed := ParseLine(line, toInt);
      if parsed.Failure? {
        return Fail(parsed.error);
      }
      outcome := AddRecord(parsed.value);
    }

    /**
     * The reading loop of `get_pedigree_from_file` over records already
     * read: each record in order, stopping at the first failure.
     */
    method AddRecords(records: seq<Record>) returns (outcome: Outcome<IngestError>)
      modifies this
      ensures (childrenMap, parentsMap, outcome) == IngestAll(old(childrenMap), old(parentsMap), records)
    {
      var i := 0;
      while i < |records|
        invariant 0 <= i <= |records|
        invariant IngestAll(old(childrenMap), old(parentsMap), records) ==
          IngestAll(childrenMap, parentsMap, records[i..])
      {
        assert records[i..][1..] == records[i + 1..];
        var result := AddRecord(records[i]);
        if result.Fail? {
          return result;
        }
        i := i + 1;
      }
      return Pass;
    }
  }
}
