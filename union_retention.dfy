/**
 * util/union_retention.py: renames the fields of the retention tables
 * (one JSON file per version pair, period and breakdown) and joins the
 * tables on their shared date field.
 */
module UnionRetention {
  import opened Wrappers
  import opened Text
  import opened Values

  /**
   * A JSON object as json.load yields it, its fields in the order the
   * resulting Python 2 dict iterates them (the dict's hash order, not the
   * file's); the order is an input of the model.
   */
  type Entries = seq<(string, Value)>

  type Table = seq<Record>

  /** The fields renamed to 'date' by default. */
  const XAccessors: set<string> := {"n_day", "week"}

  /** The characters `.strip('.json')` removes: a set, not a suffix. */
  const JsonChars: set<char> := {'.', 'j', 's', 'o', 'n'}

  /**
   * The new name of a "_cumm" field `nk`: split once on "_cumm" into a tag
   * and a tail, the tail on '-' into 3 fields (4 for an expanded table),
   * and the first field joined to the tag. An unpacking error when a split
   * gives another number of parts.
   */
  function UnpackCumm(nk: string, suffix: string): Result<Option<string>> {
    var halves := Split(nk, "_cumm");
    if |halves| != 2 then Err(UnpackError(nk, 2, |halves|))
    else
      var fields := Split(halves[1], "-");
      var want := if Contains(nk, "expanded") then 4 else 3;
      if |fields| != want then Err(UnpackError(halves[1], want, |fields|))
      else Ok(Some(fields[0] + "_" + halves[0] + suffix))
  }

  /**
   * The new name of field `k`: None when the renamed key mentions "std"
   * (the field is dropped); an unpacking error when a "_cumm" key does not
   * have the expected shape.
   */
  function RenameKey(k: string, suffix: string, exclude: set<string>): Result<Option<string>> {
    var nk := if k !in exclude then k + suffix else "date";
    if Contains(nk, "std") then Ok(None)
    else if !Contains(nk, "_cumm") then Ok(Some(nk))
    else UnpackCumm(nk, suffix)
  }

  /**
   * One renamed record: fields in the dict's iteration order, a later
   * field winning a name clash.
   */
  function RenameObj(es: Entries, suffix: string, exclude: set<string>): Result<Record>
    decreases |es|
  {
    if es == [] then Ok(map[])
    else match RenameObj(es[..|es| - 1], suffix, exclude)
      case Err(f) => Err(f)
      case Ok(obj) =>
        var (k, v) := es[|es| - 1];
        match RenameKey(k, suffix, exclude)
        case Err(f) => Err(f)
        case Ok(None) => Ok(obj)
        case Ok(Some(nk)) => Ok(obj[nk := v])
  }

  /** All records renamed, in order; the first failing field fails the whole call. */
  function RenameAll(recs: seq<Entries>, suffix: string, exclude: set<string>): Result<seq<Record>>
    decreases |recs|
  {
    if recs == [] then Ok([])
    else match RenameAll(recs[..|recs| - 1], suffix, exclude)
      case Err(f) => Err(f)
      case Ok(done) =>
        match RenameObj(recs[|recs| - 1], suffix, exclude)
        case Err(f) => Err(f)
        case Ok(obj) => Ok(done + [obj])
  }

  lemma {:induction false} RenameObjErrExtends(es: Entries, suffix: string, exclude: set<string>, j: nat)
    requires j <= |es| && RenameObj(es[..j], suffix, exclude).Err?
    ensures RenameObj(es, suffix, exclude) == RenameObj(es[..j], suffix, exclude)
    decreases |es| - j
  {
    if j < |es| {
      assert es[..j + 1][..j] == es[..j];
      RenameObjErrExtends(es, suffix, exclude, j + 1);
    } else {
      assert es[..j] == es;
    }
  }

  lemma {:induction false} RenameAllErrExtends(recs: seq<Entries>, suffix: string, exclude: set<string>, i: nat)
    requires i <= |recs| && RenameAll(recs[..i], suffix, exclude).Err?
    ensures RenameAll(recs, suffix, exclude) == RenameAll(recs[..i], suffix, exclude)
    decreases |recs| - i
  {
    if i < |recs| {
      assert recs[..i + 1][..i] == recs[..i];
      RenameAllErrExtends(recs, suffix, exclude, i + 1);
    } else {
      assert recs[..i] == recs;
    }
  }

  /** Renaming `es[..j + 1]` extends renaming `es[..j]` by field `j`. */
  lemma RenameObjNext(es: Entries, suffix: string, exclude: set<string>, j: nat, obj: Record,
                      nk: Result<Option<string>>)
    requires j < |es| && RenameObj(es[..j], suffix, exclude) == Ok(obj)
    requires nk == RenameKey(es[j].0, suffix, exclude)
    ensures nk.Err? ==> RenameObj(es[..j + 1], suffix, exclude) == Err(nk.fault)
    ensures nk == Ok(None) ==> RenameObj(es[..j + 1], suffix, exclude) == Ok(obj)
    ensures nk.Ok? && nk.value.Some? ==>
      RenameObj(es[..j + 1], suffix, exclude) == Ok(obj[nk.value.value := es[j].1])
  {
    assert es[..j + 1][..j] == es[..j];
  }

  /** The inner loop of `rename_keys`: the fields of one record, in file order. */
  method RenameRecord(elem: Entries, suffix: string, exclude: set<string>) returns (r: Result<Record>)
    ensures r == RenameObj(elem, suffix, exclude)
  {
    var obj: Record := map[];
    var j := 0;
    while j < |elem|
      invariant 0 <= j <= |elem|
      invariant RenameObj(elem[..j], suffix, exclude) == Ok(obj)
    {
      var (k, v) := elem[j];
      var nk := RenameKey(k, suffix, exclude);
      RenameObjNext(elem, suffix, exclude, j, obj, nk);
      if nk.Err? {
        RenameObjErrExtends(elem, suffix, exclude, j + 1);
        return Err(nk.fault);
      }
      if nk.value.Some? {
        obj := obj[nk.value.value := v];
      }
      j := j + 1;
    }
    assert elem[..j] == elem;
    r := Ok(obj);
  }

  /** `rename_keys(json_obj, suffix, exclude)`: builds `ret` record by record. */
  method RenameKeys(jsonObj: seq<Entries>, suffix: string, exclude: set<string>)
    returns (r: Result<seq<Record>>)
    ensures r == RenameAll(jsonObj, suffix, exclude)
  {
    var ret: seq<Record> := [];
    var i := 0;
    while i < |jsonObj|
      invariant 0 <= i <= |jsonObj|
      invariant RenameAll(jsonObj[..i], suffix, exclude) == Ok(ret)
    {
      assert jsonObj[..i + 1][..i] == jsonObj[..i];
      var obj := RenameRecord(jsonObj[i], suffix, exclude);
      if obj.Err? {
        RenameAllErrExtends(jsonObj, suffix, exclude, i + 1);
        return Err(obj.fault);
      }
      ret := ret + [obj.value];
      i := i + 1;
    }
    assert jsonObj[..i] == jsonObj;
    r := Ok(ret);
  }

  // ---------------------------------------------------------------------
  // Properties of the renaming

  /** An x-accessor becomes 'date'; any other key plain of "std" and "_cumm" gets the suffix. */
  lemma RenameKeyPlain(k: string, suffix: string, exclude: set<string>)
    ensures k in exclude ==> RenameKey(k, suffix, exclude) == Ok(Some("date"))
    ensures k !in exclude && !Contains(k + suffix, "std") && !Contains(k + suffix, "_cumm")
      ==> RenameKey(k, suffix, exclude) == Ok(Some(k + suffix))
  {
    if k in exclude {
      NoFirstChar("date", "std");
      NoFirstChar("date", "_cumm");
    }
  }

  lemma JoinTwo(parts: seq<string>, sep: string)
    requires |parts| == 2
    ensures Join(parts, sep) == parts[0] + sep + parts[1]
  {
    assert parts[1..] == [parts[1]];
  }

  lemma JoinHead(parts: seq<string>, sep: string)
    requires |parts| >= 2
    ensures Join(parts, sep) == parts[0] + sep + Join(parts[1..], sep)
  {
  }

  /**
   * A "_cumm" key that renames successfully becomes `v + '_' + tag + suffix`:
   * `tag` is the text before the one "_cumm", `v` the text between it and
   * the next '-' (the text after "_cumm" already ends with the suffix).
   */
  lemma RenameKeyCumm(k: string, suffix: string, exclude: set<string>) returns (tag: string, v: string, rest: string)
    requires k !in exclude
    requires RenameKey(k, suffix, exclude).Ok? && Contains(k + suffix, "_cumm") && !Contains(k + suffix, "std")
    ensures k + suffix == tag + "_cumm" + v + "-" + rest
    ensures !Contains(tag, "_cumm") && !Contains(v + "-" + rest, "_cumm") && !Contains(v, "-")
    ensures RenameKey(k, suffix, exclude) == Ok(Some(v + "_" + tag + suffix))
  {
    assert RenameKey(k, suffix, exclude) == UnpackCumm(k + suffix, suffix);
    tag, v, rest := UnpackCummShape(k + suffix, suffix);
  }

  lemma UnpackCummShape(nk: string, suffix: string) returns (tag: string, v: string, rest: string)
    requires UnpackCumm(nk, suffix).Ok?
    ensures nk == tag + "_cumm" + v + "-" + rest
    ensures !Contains(tag, "_cumm") && !Contains(v + "-" + rest, "_cumm") && !Contains(v, "-")
    ensures UnpackCumm(nk, suffix) == Ok(Some(v + "_" + tag + suffix))
  {
    var halves := Split(nk, "_cumm");
    assert |halves| == 2;
    var fields := Split(halves[1], "-");
    assert |fields| >= 3;
    assert UnpackCumm(nk, suffix) == Ok(Some(fields[0] + "_" + halves[0] + suffix));
    assert !Contains(halves[0], "_cumm") && !Contains(halves[1], "_cumm");
    assert !Contains(fields[0], "-");
    JoinTwo(halves, "_cumm");
    JoinHead(fields, "-");
    tag, v, rest := halves[0], fields[0], Join(fields[1..], "-");
  }

  lemma NoStdParts(tag: string, v: string, rest: string)
    requires !Contains(tag + "_cumm" + v + "-" + rest, "std")
    ensures !Contains(tag, "std") && !Contains(v, "std")
  {
    var s := tag + "_cumm" + v + "-" + rest;
    if Contains(tag, "std") {
      assert s == tag + ("_cumm" + v + "-" + rest);
      ContainsConcatLeft(tag, "_cumm" + v + "-" + rest, "std");
    }
    if Contains(v, "std") {
      assert s == (tag + "_cumm") + v + ("-" + rest);
      ContainsConcatRight(tag + "_cumm", v, "std");
      ContainsConcatLeft(tag + "_cumm" + v, "-" + rest, "std");
    }
  }

  /** With a suffix that is empty or starts with '-', no renamed key contains "std". */
  lemma RenameKeyNoStd(k: string, suffix: string, exclude: set<string>)
    requires suffix == [] || suffix[0] == '-'
    requires RenameKey(k, suffix, exclude).Ok? && RenameKey(k, suffix, exclude).value.Some?
    ensures !Contains(RenameKey(k, suffix, exclude).value.value, "std")
  {
    var nk := if k !in exclude then k + suffix else "date";
    if k in exclude {
      RenameKeyPlain(k, suffix, exclude);
      NoFirstChar("date", "std");
    } else if Contains(nk, "_cumm") {
      var tag, v, rest := RenameKeyCumm(k, suffix, exclude);
      NoStdParts(tag, v, rest);
      if Contains(suffix, "std") {
        ContainsConcatRight(k, suffix, "std");
      }
      NoStdJoined(v, tag, suffix);
    }
  }

  /** `v + '_' + tag + suffix` has no "std" when its parts have none and the suffix starts with '-'. */
  lemma NoStdJoined(v: string, tag: string, suffix: string)
    requires !Contains(v, "std") && !Contains(tag, "std") && !Contains(suffix, "std")
    requires suffix == [] || suffix[0] == '-'
    ensures !Contains(v + "_" + tag + suffix, "std")
  {
    assert '_' !in "std" && '-' !in "std";
    NotContainsAcross(v, '_', tag, "std");
    if suffix != [] {
      var tail := suffix[1..];
      assert suffix == ['-'] + tail;
      if Contains(tail, "std") {
        ContainsConcatRight(['-'], tail, "std");
      }
      NotContainsAcross(v + "_" + tag, '-', tail, "std");
      assert v + "_" + tag + suffix == v + "_" + tag + ['-'] + tail;
    } else {
      assert v + "_" + tag + suffix == v + "_" + tag;
    }
  }

  /** A key with two "_cumm" occurrences does not unpack into (tag, tail). */
  lemma RenameKeySecondCumm(k: string, suffix: string, exclude: set<string>, i: nat, j: nat)
    requires k !in exclude && !Contains(k + suffix, "std")
    requires i < j && OccursAt(k + suffix, "_cumm", i) && OccursAt(k + suffix, "_cumm", j)
    ensures RenameKey(k, suffix, exclude).Err?
  {
    var nk := k + suffix;
    assert forall m :: 0 < m < |"_cumm"| ==> "_cumm"[m] != '_';
    SplitTwoOccurrences(nk, "_cumm", i, j);
    ContainsAt(nk, "_cumm", i);
    assert RenameKey(k, suffix, exclude) == UnpackCumm(nk, suffix);
  }

  /** A "_cumm" tail with the wrong number of '-' fields is an unpacking error. */
  lemma RenameKeyFieldCount(k: string, suffix: string, exclude: set<string>)
    requires k !in exclude
    requires !Contains(k + suffix, "std") && Contains(k + suffix, "_cumm")
    requires |Split(k + suffix, "_cumm")| == 2
    ensures var tail := Split(k + suffix, "_cumm")[1];
      var want := if Contains(k + suffix, "expanded") then 4 else 3;
      RenameKey(k, suffix, exclude).Err? <==> |Split(tail, "-")| != want
  {
  }

  /**
   * rename_keys keeps one record per input record, in order, and each
   * renamed record carries the value of the last field renamed to each name.
   */
  lemma {:induction false} RenameAllShape(recs: seq<Entries>, suffix: string, exclude: set<string>)
    requires RenameAll(recs, suffix, exclude).Ok?
    ensures var out := RenameAll(recs, suffix, exclude).value;
      |out| == |recs| && forall i :: 0 <= i < |recs| ==> RenameObj(recs[i], suffix, exclude) == Ok(out[i])
  {
    if recs != [] {
      var init := recs[..|recs| - 1];
      RenameAllShape(init, suffix, exclude);
      assert forall i :: 0 <= i < |init| ==> init[i] == recs[i];
    }
  }

  /** Each field whose new name no later field takes is carried over unchanged under that name. */
  lemma {:induction false} RenameObjCarries(es: Entries, suffix: string, exclude: set<string>, i: nat, nk: string)
    requires RenameObj(es, suffix, exclude).Ok?
    requires i < |es| && RenameKey(es[i].0, suffix, exclude) == Ok(Some(nk))
    requires forall j :: i < j < |es| ==> RenameKey(es[j].0, suffix, exclude) != Ok(Some(nk))
    ensures var obj := RenameObj(es, suffix, exclude).value; nk in obj && obj[nk] == es[i].1
  {
    var init := es[..|es| - 1];
    if i < |init| {
      assert init[i] == es[i];
      forall j | i < j < |init| ensures RenameKey(init[j].0, suffix, exclude) != Ok(Some(nk)) {
        assert init[j] == es[j];
      }
      RenameObjCarries(init, suffix, exclude, i, nk);
    }
  }

  /** Every key of a renamed record is the new name of one of its fields. */
  lemma {:induction false} RenameObjKeys(es: Entries, suffix: string, exclude: set<string>, nk: string)
    requires RenameObj(es, suffix, exclude).Ok? && nk in RenameObj(es, suffix, exclude).value
    ensures exists i :: 0 <= i < |es| && RenameKey(es[i].0, suffix, exclude) == Ok(Some(nk))
  {
    var init := es[..|es| - 1];
    var last := es[|es| - 1];
    if RenameKey(last.0, suffix, exclude) != Ok(Some(nk)) {
      RenameObjKeys(init, suffix, exclude, nk);
      var i :| 0 <= i < |init| && RenameKey(init[i].0, suffix, exclude) == Ok(Some(nk));
      assert init[i] == es[i];
    }
  }

  /** With an identifier-shaped suffix, no output record has a key containing "std". */
  lemma RenameObjNoStd(es: Entries, suffix: string, exclude: set<string>, nk: string)
    requires suffix == [] || suffix[0] == '-'
    requires RenameObj(es, suffix, exclude).Ok? && nk in RenameObj(es, suffix, exclude).value
    ensures !Contains(nk, "std")
  {
    RenameObjKeys(es, suffix, exclude, nk);
    var i :| 0 <= i < |es| && RenameKey(es[i].0, suffix, exclude) == Ok(Some(nk));
    RenameKeyNoStd(es[i].0, suffix, exclude);
  }

  // ---------------------------------------------------------------------
  // The identifier derived from a file name

  /**
   * The identifier of a data file: '-' and the file name after its second
   * '-', with the characters of ".json" stripped from both ends.
   */
  function Identifier(filename: string): string {
    var parts := Split(filename, "-");
    "-" + Strip(Join(if |parts| < 2 then [] else parts[2..], "-"), JsonChars)
  }

  /** A name with fewer than two '-' gives the bare identifier "-". */
  lemma IdentifierShort(filename: string)
    requires |Split(filename, "-")| < 3
    ensures Identifier(filename) == "-"
  {
  }

  /** The identifier is the text after the name's second '-', stripped. */
  lemma IdentifierOfName(a: string, b: string, rest: string)
    requires !Contains(a, "-") && !Contains(b, "-")
    ensures Identifier(a + "-" + b + "-" + rest) == "-" + Strip(rest, JsonChars)
  {
    var name := a + "-" + b + "-" + rest;
    SplitAfter(b, rest, "-");
    assert name == a + "-" + (b + "-" + rest);
    SplitAfter(a, b + "-" + rest, "-");
    var parts := Split(name, "-");
    assert parts == [a, b] + Split(rest, "-");
    assert parts[2..] == Split(rest, "-");
  }

  /**
   * `.strip('.json')` removes the extension when the stem neither starts
   * nor ends with one of the characters '.', 'j', 's', 'o', 'n'.
   */
  lemma StripJsonSuffix(stem: string)
    requires |stem| > 0 && stem[0] !in JsonChars && stem[|stem| - 1] !in JsonChars
    ensures Strip(stem + ".json", JsonChars) == stem
  {
    var s := stem + ".json";
    StripLeftTo(s, s, c => c in JsonChars);
    assert s[..|stem|] == stem;
    forall k | |stem| <= k < |s| ensures s[k] in JsonChars {
      assert s[k] == ".json"[k - |stem|];
    }
    StripRightTo(s, stem, c => c in JsonChars);
  }

  /** The data file names `<prefix>-5657-<stem>.json` give the identifier `-<stem>`. */
  lemma IdentifierOfFile(a: string, b: string, stem: string)
    requires !Contains(a, "-") && !Contains(b, "-")
    requires |stem| > 0 && stem[0] !in JsonChars && stem[|stem| - 1] !in JsonChars
    ensures Identifier(a + "-" + b + "-" + stem + ".json") == "-" + stem
  {
    var rest := stem + ".json";
    var name := a + "-" + b + "-" + rest;
    assert a + "-" + b + "-" + stem + ".json" == name;
    calc {
      Identifier(name);
    ==  { IdentifierOfName(a, b, rest); }
      "-" + Strip(rest, JsonChars);
    ==  { StripJsonSuffix(stem); }
      "-" + stem;
    }
  }

  // ---------------------------------------------------------------------
  // merge_json

  /** `filter(lambda j: j[xa] == v, nxt)[0]` under Python 2: the lambda sees every record. */
  function FirstMatch(nxt: Table, xa: string, v: Value): Result<Record> {
    if exists i :: 0 <= i < |nxt| && xa !in nxt[i] then Err(KeyError(xa))
    else
      var m := Filter(nxt, (r: Record) => xa in r && r[xa] == v);
      if m == [] then Err(IndexError("list index out of range")) else Ok(m[0])
  }

  /** One pass of merge_json's inner loop: every record of `ret` takes the fields of its match in `nxt`. */
  function MergeStep(ret: Table, nxt: Table, xa: string): Result<Table>
    decreases |ret|
  {
    if ret == [] then Ok([])
    else match MergeStep(ret[..|ret| - 1], nxt, xa)
      case Err(f) => Err(f)
      case Ok(done) =>
        var elem := ret[|ret| - 1];
        if xa !in elem then Err(KeyError(xa))
        else match FirstMatch(nxt, xa, elem[xa])
          case Err(f) => Err(f)
          case Ok(src) => Ok(done + [Overlay(elem, src, {xa})])
  }

  /** merge_json's outer loop: the remaining lists are popped from the back. */
  function MergeFrom(ret: Table, rest: seq<Table>, xa: string): Result<Table>
    decreases |rest|
  {
    if rest == [] then Ok(ret)
    else match MergeStep(ret, rest[|rest| - 1], xa)
      case Err(f) => Err(f)
      case Ok(next) => MergeFrom(next, rest[..|rest| - 1], xa)
  }

  /** What merge_json(j, xa) returns. */
  function Merge(j: seq<Table>, xa: string): Result<Table> {
    if j == [] then Err(IndexError("pop from empty list"))
    else MergeFrom(j[|j| - 1], j[..|j| - 1], xa)
  }

  /** The Python list of tables that merge_json pops from. */
  class TableList {
    var tables: seq<Table>

    constructor (tables: seq<Table>)
      ensures this.tables == tables
    {
      this.tables := tables;
    }

    /** `list.pop()`. */
    method Pop() returns (r: Result<Table>)
      modifies this
      ensures old(tables) == [] ==> r == Err(IndexError("pop from empty list")) && tables == old(tables)
      ensures old(tables) != [] ==> r == Ok(old(tables)[|old(tables)| - 1]) && tables == old(tables)[..|old(tables)| - 1]
    {
      if tables == [] {
        return Err(IndexError("pop from empty list"));
      }
      r := Ok(tables[|tables| - 1]);
      tables := tables[..|tables| - 1];
    }
  }

  lemma {:induction false} MergeStepErrExtends(ret: Table, nxt: Table, xa: string, i: nat)
    requires i <= |ret| && MergeStep(ret[..i], nxt, xa).Err?
    ensures MergeStep(ret, nxt, xa) == MergeStep(ret[..i], nxt, xa)
    decreases |ret| - i
  {
    if i < |ret| {
      assert ret[..i + 1][..i] == ret[..i];
      MergeStepErrExtends(ret, nxt, xa, i + 1);
    } else {
      assert ret[..i] == ret;
    }
  }

  /** The pass over `ret[..i + 1]` extends the pass over `ret[..i]` by record `i`. */
  lemma MergeStepNext(ret: Table, nxt: Table, xa: string, i: nat, done: Table)
    requires i < |ret| && MergeStep(ret[..i], nxt, xa) == Ok(done)
    ensures xa !in ret[i] ==> MergeStep(ret[..i + 1], nxt, xa) == Err(KeyError(xa))
    ensures xa in ret[i] && FirstMatch(nxt, xa, ret[i][xa]).Err? ==>
      MergeStep(ret[..i + 1], nxt, xa) == Err(FirstMatch(nxt, xa, ret[i][xa]).fault)
    ensures xa in ret[i] && FirstMatch(nxt, xa, ret[i][xa]).Ok? ==>
      MergeStep(ret[..i + 1], nxt, xa) == Ok(done + [Overlay(ret[i], FirstMatch(nxt, xa, ret[i][xa]).value, {xa})])
  {
    assert ret[..i + 1][..i] == ret[..i];
  }

  /** merge_json's inner loop: each record of `ret` takes the fields of its match in `nxt`. */
  method MergePass(ret: Table, nxt: Table, xa: string) returns (r: Result<Table>)
    ensures r == MergeStep(ret, nxt, xa)
  {
    var cur := ret;
    var i := 0;
    while i < |cur|
      invariant 0 <= i <= |cur| == |ret|
      invariant MergeStep(ret[..i], nxt, xa) == Ok(cur[..i])
      invariant forall k :: i <= k < |cur| ==> cur[k] == ret[k]
    {
      var elem := cur[i];
      MergeStepNext(ret, nxt, xa, i, cur[..i]);
      if xa !in elem {
        MergeStepErrExtends(ret, nxt, xa, i + 1);
        return Err(KeyError(xa));
      }
      var m := FirstMatch(nxt, xa, elem[xa]);
      if m.Err? {
        MergeStepErrExtends(ret, nxt, xa, i + 1);
        return Err(m.fault);
      }
      elem := CopyFields(elem, m.value, {xa});
      cur := cur[i := elem];
      assert cur[..i + 1] == cur[..i] + [elem];
      i := i + 1;
    }
    assert ret[..i] == ret && cur[..i] == cur;
    r := Ok(cur);
  }

  /** `merge_json(j, xa)`: pops every list of `j`, updating the records of the last one. */
  method MergeJson(j: TableList, xa: string) returns (r: Result<Table>)
    modifies j
    ensures r == Merge(old(j.tables), xa)
    ensures r.Ok? ==> j.tables == []
  {
    var popped := j.Pop();
    if popped.Err? {
      return Err(popped.fault);
    }
    var ret := popped.value;
    while |j.tables| > 0
      invariant MergeFrom(ret, j.tables, xa) == Merge(old(j.tables), xa)
      decreases |j.tables|
    {
      var next := j.Pop();
      var step := MergePass(ret, next.value, xa);
      if step.Err? {
        return Err(step.fault);
      }
      ret := step.value;
    }
    r := Ok(ret);
  }

  // ---------------------------------------------------------------------
  // Properties of the merge

  /**
   * One pass keeps the length and order of `ret`; every record has the key
   * field and takes every field except it from its first match in `nxt`.
   */
  lemma {:induction false} MergeStepAt(ret: Table, nxt: Table, xa: string)
    requires MergeStep(ret, nxt, xa).Ok?
    ensures var out := MergeStep(ret, nxt, xa).value;
      && |out| == |ret|
      && forall i :: 0 <= i < |ret| ==>
           xa in ret[i] && FirstMatch(nxt, xa, ret[i][xa]).Ok?
           && out[i] == Overlay(ret[i], FirstMatch(nxt, xa, ret[i][xa]).value, {xa})
  {
    if ret != [] {
      var n := |ret| - 1;
      var init := ret[..n];
      var done := MergeStep(init, nxt, xa).value;
      MergeStepAt(init, nxt, xa);
      var src := FirstMatch(nxt, xa, ret[n][xa]).value;
      assert MergeStep(ret, nxt, xa).value == done + [Overlay(ret[n], src, {xa})];
      forall i | 0 <= i < n
        ensures xa in ret[i] && FirstMatch(nxt, xa, ret[i][xa]).Ok?
        ensures MergeStep(ret, nxt, xa).value[i] == Overlay(ret[i], FirstMatch(nxt, xa, ret[i][xa]).value, {xa})
      {
        assert init[i] == ret[i];
      }
    }
  }

  /** The first match really is the first record of `nxt` with that key value. */
  lemma FirstMatchIsFirst(nxt: Table, xa: string, v: Value)
    requires FirstMatch(nxt, xa, v).Ok?
    ensures exists i ::
              && 0 <= i < |nxt| && nxt[i] == FirstMatch(nxt, xa, v).value && nxt[i][xa] == v
              && (forall l :: 0 <= l < i ==> nxt[l][xa] != v)
  {
    var p := (r: Record) => xa in r && r[xa] == v;
    FilterExact(nxt, p);
    var ix := KeptIndices(nxt, p);
    var i := ix[0];
    forall l | 0 <= l < i ensures nxt[l][xa] != v {
    }
  }

  /** Without a record of `nxt` matching some key value of `ret`, the pass fails with an index error. */
  lemma MergeStepMissing(ret: Table, nxt: Table, xa: string, i: nat)
    requires i < |ret| && xa in ret[i]
    requires forall l :: 0 <= l < |nxt| ==> xa in nxt[l] && nxt[l][xa] != ret[i][xa]
    ensures MergeStep(ret, nxt, xa).Err?
  {
    if MergeStep(ret, nxt, xa).Ok? {
      MergeStepAt(ret, nxt, xa);
      FirstMatchIsFirst(nxt, xa, ret[i][xa]);
    }
  }

  /**
   * merge_json returns a table as long as the last list, every record with
   * its key value, and no field removed: the last list's records grow in place.
   */
  lemma {:induction false} MergeFromShape(ret: Table, rest: seq<Table>, xa: string)
    requires MergeFrom(ret, rest, xa).Ok?
    ensures var out := MergeFrom(ret, rest, xa).value;
      && |out| == |ret|
      && (forall i :: 0 <= i < |ret| && xa in ret[i] ==> xa in out[i] && out[i][xa] == ret[i][xa])
      && (forall i :: 0 <= i < |ret| ==> ret[i].Keys <= out[i].Keys)
    decreases |rest|
  {
    if rest != [] {
      var next := MergeStep(ret, rest[|rest| - 1], xa).value;
      MergeStepAt(ret, rest[|rest| - 1], xa);
      MergeFromShape(next, rest[..|rest| - 1], xa);
    }
  }

  lemma MergeShape(j: seq<Table>, xa: string)
    requires Merge(j, xa).Ok?
    ensures var last, out := j[|j| - 1], Merge(j, xa).value;
      && |out| == |last|
      && (forall i :: 0 <= i < |last| && xa in last[i] ==> xa in out[i] && out[i][xa] == last[i][xa])
      && (forall i :: 0 <= i < |last| ==> last[i].Keys <= out[i].Keys)
  {
    MergeFromShape(j[|j| - 1], j[..|j| - 1], xa);
  }

  /** merge_json of an empty list fails on the first pop. */
  lemma MergeEmpty(xa: string)
    ensures Merge([], xa) == Err(IndexError("pop from empty list"))
  {
  }

  /** The pass over the first remaining list is the last one: its values win. */
  lemma {:induction false} MergeFromLastPass(ret: Table, rest: seq<Table>, xa: string) returns (prev: Table)
    requires |rest| >= 1 && MergeFrom(ret, rest, xa).Ok?
    ensures MergeStep(prev, rest[0], xa) == Ok(MergeFrom(ret, rest, xa).value)
    decreases |rest|
  {
    var next := MergeStep(ret, rest[|rest| - 1], xa).value;
    if |rest| == 1 {
      prev := ret;
    } else {
      assert rest[..|rest| - 1][0] == rest[0];
      prev := MergeFromLastPass(next, rest[..|rest| - 1], xa);
    }
  }

  /**
   * Lists are merged from back to front, so on a shared field the value
   * from the first list of `j` wins: every field but the key of the first
   * record of j[0] with the same key value ends up in the result.
   */
  lemma EarliestListWins(j: seq<Table>, xa: string, i: nat)
    requires |j| >= 2 && Merge(j, xa).Ok?
    requires i < |Merge(j, xa).value|
    ensures var out := Merge(j, xa).value;
      xa in out[i] && FirstMatch(j[0], xa, out[i][xa]).Ok?
      && forall k :: k in FirstMatch(j[0], xa, out[i][xa]).value && k != xa
           ==> k in out[i] && out[i][k] == FirstMatch(j[0], xa, out[i][xa]).value[k]
  {
    var out := Merge(j, xa).value;
    assert j[..|j| - 1][0] == j[0];
    var prev := MergeFromLastPass(j[|j| - 1], j[..|j| - 1], xa);
    MergeStepAt(prev, j[0], xa);
  }
}
