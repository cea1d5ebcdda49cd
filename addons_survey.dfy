/**
 * The add-on survey page: a bar chart of the days until the first
 * self-installed add-on on release, and one bar chart per survey question
 * of how often each answer was given, the most frequent answer first.
 */
module AddonsSurvey {
  import opened Wrappers
  import opened Text
  import opened Values
  import opened Charts

  /** A CSV row: every field present in the file is a string. */
  type Row = map<string, string>

  /** `row[field]` used as an object key or in a string concatenation: absent reads as "undefined". */
  function FieldText(row: Row, field: string): string {
    if field in row then row[field] else "undefined"
  }

  /** A row handed to the charting library. */
  function RowRecord(row: Row): Record {
    map k | k in row :: Str(row[k])
  }

  // ---------------------------------------------------------------------
  // Tallies: a JavaScript object of counts, its keys in insertion order.
  // ---------------------------------------------------------------------

  /** The entries of a count object, in key order. */
  type Tally = seq<(string, nat)>

  /** No key appears twice: the first key is not among the others, and so on. */
  predicate DistinctKeys(t: Tally) {
    t == [] || (t[0].0 !in KeySet(t[1..]) && DistinctKeys(t[1..]))
  }

  /** `(count[key] || 0)`: the count under `key`, 0 when the key is absent. */
  function CountOf(t: Tally, key: string): nat {
    if t == [] then 0
    else if t[0].0 == key then t[0].1
    else CountOf(t[1..], key)
  }

  /** The set of keys. */
  function KeySet(t: Tally): set<string> {
    if t == [] then {} else {t[0].0} + KeySet(t[1..])
  }

  /** The sum of all counts. */
  function Total(t: Tally): nat {
    if t == [] then 0 else t[0].1 + Total(t[1..])
  }

  /**
   * `count[key] = (count[key] || 0) + 1`: an existing key's count goes up
   * in place; a new key is added last with count 1.
   */
  function Increment(t: Tally, key: string): Tally {
    if t == [] then [(key, 1)]
    else if t[0].0 == key then [(key, t[0].1 + 1)] + t[1..]
    else [t[0]] + Increment(t[1..], key)
  }

  /** Incrementing adds one to the key's count and leaves every other count alone. */
  lemma {:induction false} IncrementCount(t: Tally, key: string, x: string)
    ensures CountOf(Increment(t, key), x) == CountOf(t, x) + (if x == key then 1 else 0)
  {
    if t != [] && t[0].0 != key {
      IncrementCount(t[1..], key, x);
      assert Increment(t, key)[1..] == Increment(t[1..], key);
    }
  }

  /** Incrementing adds one to the total. */
  lemma {:induction false} IncrementTotal(t: Tally, key: string)
    ensures Total(Increment(t, key)) == Total(t) + 1
  {
    if t != [] && t[0].0 != key {
      IncrementTotal(t[1..], key);
      assert Increment(t, key)[1..] == Increment(t[1..], key);
    } else if t != [] {
      assert Increment(t, key)[1..] == t[1..];
    }
  }

  /** Incrementing adds the key to the key set and keeps the keys distinct. */
  lemma {:induction false} IncrementKeys(t: Tally, key: string)
    requires DistinctKeys(t)
    ensures KeySet(Increment(t, key)) == KeySet(t) + {key}
    ensures DistinctKeys(Increment(t, key))
  {
    var r := Increment(t, key);
    if t == [] {
    } else if t[0].0 == key {
      assert r[1..] == t[1..];
    } else {
      IncrementKeys(t[1..], key);
      assert r[1..] == Increment(t[1..], key);
    }
  }

  /** The tally of a sequence of keys: each one counted in turn, from an empty object. */
  function Tallied(vals: seq<string>): Tally {
    if vals == [] then [] else Increment(Tallied(vals[..|vals| - 1]), vals[|vals| - 1])
  }

  /** Counting one more value is incrementing its count. */
  lemma TalliedSnoc(vals: seq<string>, x: string)
    ensures Tallied(vals + [x]) == Increment(Tallied(vals), x)
  {
    assert (vals + [x])[..|vals|] == vals;
  }

  /**
   * What `Counter` promises: one entry per distinct value, each counting
   * that value's occurrences, the counts adding up to the number of values.
   */
  lemma {:induction false} TalliedSpec(vals: seq<string>)
    ensures DistinctKeys(Tallied(vals))
    ensures KeySet(Tallied(vals)) == set v | v in vals
    ensures forall x :: CountOf(Tallied(vals), x) == multiset(vals)[x]
    ensures Total(Tallied(vals)) == |vals|
  {
    if vals != [] {
      var init, last := vals[..|vals| - 1], vals[|vals| - 1];
      var t := Tallied(init);
      assert Tallied(vals) == Increment(t, last);
      assert vals == init + [last];
      TalliedSpec(init);
      IncrementKeys(t, last);
      IncrementTotal(t, last);
      assert (set v | v in vals) == (set v | v in init) + {last};
      assert multiset(vals) == multiset(init) + multiset{last};
      forall x ensures CountOf(Tallied(vals), x) == multiset(vals)[x] {
        IncrementCount(t, last, x);
      }
    }
  }

  /** `Counter(array)`: the values of the array counted one after another. */
  method Counter(vals: seq<string>) returns (count: Tally)
    ensures count == Tallied(vals)
  {
    count := [];
    for i := 0 to |vals|
      invariant count == Tallied(vals[..i])
    {
      assert vals[..i + 1][..i] == vals[..i];
      count := Increment(count, vals[i]);
    }
    assert vals[..|vals|] == vals;
  }

  // ---------------------------------------------------------------------
  // Tallying the survey answers.
  // ---------------------------------------------------------------------

  /** `resp_j !== ''`: only an answer that is present and empty is skipped. */
  predicate Answered(row: Row, question: string) {
    !(question in row && row[question] == "")
  }

  /** The answers counted for a question, in row order; an absent answer counts as "undefined". */
  function Answers(data: seq<Row>, question: string): seq<string> {
    if data == [] then []
    else
      var last := data[|data| - 1];
      Answers(data[..|data| - 1], question) + (if Answered(last, question) then [FieldText(last, question)] else [])
  }

  /** One step of the row loop: the next row adds its answer unless it is empty. */
  lemma AnswersNext(data: seq<Row>, question: string, i: nat)
    requires i < |data|
    ensures Answers(data[..i + 1], question)
      == Answers(data[..i], question) + (if Answered(data[i], question) then [FieldText(data[i], question)] else [])
  {
    assert data[..i + 1][..i] == data[..i];
  }

  /** The answers counted are those of the rows not answered with `''`, in order. */
  lemma {:induction false} AnswersAreFilter(data: seq<Row>, question: string)
    ensures var kept := Filter(data, (r: Row) => Answered(r, question));
      |Answers(data, question)| == |kept|
      && forall k :: 0 <= k < |kept| ==> Answers(data, question)[k] == FieldText(kept[k], question)
  {
    if data != [] {
      var init := data[..|data| - 1];
      AnswersAreFilter(init, question);
      var kept0, kept := Filter(init, (r: Row) => Answered(r, question)), Filter(data, (r: Row) => Answered(r, question));
      forall k | 0 <= k < |kept| ensures Answers(data, question)[k] == FieldText(kept[k], question) {
        if k < |kept0| {
          assert kept[k] == kept0[k];
        }
      }
    }
  }

  /**
   * A question's tally counts every row not answered with `''`: its
   * counts add up to the number of such rows.
   */
  lemma TallyTotal(data: seq<Row>, question: string)
    ensures Total(Tallied(Answers(data, question))) == |Filter(data, (r: Row) => Answered(r, question))|
  {
    TalliedSpec(Answers(data, question));
    AnswersAreFilter(data, question);
  }

  /** The tallies of all questions, in question order. */
  function TallyAll(data: seq<Row>, questions: seq<string>): (r: seq<Tally>)
    ensures |r| == |questions|
  {
    seq(|questions|, j requires 0 <= j < |questions| => Tallied(Answers(data, questions[j])))
  }

  /** One row's answer to a question counted in that question's tally, unless it is `''`. */
  function CountAnswer(t: Tally, row: Row, question: string): Tally {
    if Answered(row, question) then Increment(t, FieldText(row, question)) else t
  }

  /** One step of the row loop for one question. */
  lemma TallyNext(data: seq<Row>, question: string, i: nat)
    requires i < |data|
    ensures Tallied(Answers(data[..i + 1], question)) == CountAnswer(Tallied(Answers(data[..i], question)), data[i], question)
  {
    AnswersNext(data, question, i);
    TalliedSnoc(Answers(data[..i], question), FieldText(data[i], question));
    assert Answers(data[..i], question) + [] == Answers(data[..i], question);
  }

  /** The inner loop: one row's answers counted, question by question. */
  method TallyRow(inputs: seq<Tally>, row: Row, questions: seq<string>) returns (next: seq<Tally>)
    requires |inputs| == |questions|
    ensures |next| == |questions|
    ensures forall k :: 0 <= k < |questions| ==> next[k] == CountAnswer(inputs[k], row, questions[k])
  {
    next := inputs;
    for j := 0 to |questions|
      invariant |next| == |questions|
      invariant forall k :: 0 <= k < j ==> next[k] == CountAnswer(inputs[k], row, questions[k])
      invariant forall k :: j <= k < |questions| ==> next[k] == inputs[k]
    {
      var question := questions[j];
      if Answered(row, question) {
        next := next[j := Increment(next[j], FieldText(row, question))];
      }
    }
  }

  /**
   * The loop over rows and questions: each answer not exactly `''` is
   * counted in its question's tally.
   */
  method TallyAnswers(data: seq<Row>, questions: seq<string>) returns (inputs: seq<Tally>)
    ensures inputs == TallyAll(data, questions)
  {
    inputs := seq(|questions|, j => []);
    for i := 0 to |data|
      invariant |inputs| == |questions|
      invariant forall k :: 0 <= k < |questions| ==> inputs[k] == Tallied(Answers(data[..i], questions[k]))
    {
      forall k | 0 <= k < |questions|
        ensures Tallied(Answers(data[..i + 1], questions[k])) == CountAnswer(inputs[k], data[i], questions[k])
      {
        TallyNext(data, questions[k], i);
      }
      inputs := TallyRow(inputs, data[i], questions);
    }
    assert data[..|data|] == data;
  }

  // ---------------------------------------------------------------------
  // Drawing a tally.
  // ---------------------------------------------------------------------

  /** One bar: `{resp: key, n: count}`. */
  datatype Item = Item(resp: string, n: nat)

  /** The `for (var type in input)` rows, in key order. */
  function TallyItems(t: Tally): (r: seq<Item>)
    ensures |r| == |t|
    ensures forall i :: 0 <= i < |t| ==> r[i] == Item(t[i].0, t[i].1)
  {
    seq(|t|, i requires 0 <= i < |t| => Item(t[i].0, t[i].1))
  }

  /** Counts never increase along the sequence. */
  predicate Descending(s: seq<Item>) {
    forall i, j :: 0 <= i < j < |s| ==> s[i].n >= s[j].n
  }

  /** Insert after every item with at least the same count, so equal counts keep their order. */
  function InsertDesc(x: Item, s: seq<Item>): seq<Item> {
    if s == [] then [x]
    else if s[0].n >= x.n then [s[0]] + InsertDesc(x, s[1..])
    else [x] + s
  }

  /** `output.sort((a, b) => b.n - a.n)`: a stable sort by decreasing count. */
  function SortDesc(s: seq<Item>): seq<Item> {
    if s == [] then [] else InsertDesc(s[|s| - 1], SortDesc(s[..|s| - 1]))
  }

  /** Inserting adds the one item. */
  lemma {:induction false} InsertDescPerm(x: Item, s: seq<Item>)
    ensures multiset(InsertDesc(x, s)) == multiset(s) + multiset{x}
  {
    if s != [] && s[0].n >= x.n {
      InsertDescPerm(x, s[1..]);
      assert InsertDesc(x, s) == [s[0]] + InsertDesc(x, s[1..]);
      assert s == [s[0]] + s[1..];
    }
  }

  /** Inserting into a descending sequence keeps it descending. */
  lemma {:induction false} InsertDescSorted(x: Item, s: seq<Item>)
    requires Descending(s)
    ensures Descending(InsertDesc(x, s))
  {
    var r := InsertDesc(x, s);
    if s != [] && s[0].n >= x.n {
      var rest := s[1..];
      InsertDescSorted(x, rest);
      var r1 := InsertDesc(x, rest);
      assert r == [s[0]] + r1;
      assert r1[0] == x || r1[0] == s[1];
      forall i, j | 0 <= i < j < |r| ensures r[i].n >= r[j].n {
        if i == 0 {
          assert r[j] == r1[j - 1];
        } else {
          assert r[i] == r1[i - 1] && r[j] == r1[j - 1];
        }
      }
    } else if s != [] {
      forall i, j | 0 <= i < j < |r| ensures r[i].n >= r[j].n {
        if i == 0 {
          assert r[j] == s[j - 1];
        } else {
          assert r[i] == s[i - 1] && r[j] == s[j - 1];
        }
      }
    }
  }

  /** The sorted rows are the same rows, by decreasing count. */
  lemma {:induction false} SortDescSpec(s: seq<Item>)
    ensures Descending(SortDesc(s))
    ensures multiset(SortDesc(s)) == multiset(s)
  {
    if s != [] {
      var init := s[..|s| - 1];
      assert SortDesc(s) == InsertDesc(s[|s| - 1], SortDesc(init));
      SortDescSpec(init);
      InsertDescSorted(s[|s| - 1], SortDesc(init));
      InsertDescPerm(s[|s| - 1], SortDesc(init));
      assert s == init + [s[|s| - 1]];
    }
  }

  /** The items of `s` whose count is `c`, in their order in `s`. */
  function WithCount(s: seq<Item>, c: nat): seq<Item> {
    if s == [] then [] else (if s[0].n == c then [s[0]] else []) + WithCount(s[1..], c)
  }

  /** Taking the items of one count distributes over concatenation. */
  lemma {:induction false} WithCountAppend(a: seq<Item>, b: seq<Item>, c: nat)
    ensures WithCount(a + b, c) == WithCount(a, c) + WithCount(b, c)
  {
    if a != [] {
      var head := if a[0].n == c then [a[0]] else [];
      assert (a + b)[0] == a[0] && (a + b)[1..] == a[1..] + b;
      WithCountAppend(a[1..], b, c);
      calc {
        WithCount(a + b, c);
        head + WithCount(a[1..] + b, c);
        head + (WithCount(a[1..], c) + WithCount(b, c));
        (head + WithCount(a[1..], c)) + WithCount(b, c);
      }
    } else {
      assert a + b == b;
    }
  }

  /** A sequence whose counts are all below `c` has no item of count `c`. */
  lemma {:induction false} WithCountBelow(s: seq<Item>, c: nat)
    requires forall i :: 0 <= i < |s| ==> s[i].n < c
    ensures WithCount(s, c) == []
  {
    if s != [] {
      WithCountBelow(s[1..], c);
    }
  }

  /** Inserting places the new item after every item of the same count. */
  lemma {:induction false} InsertDescStable(x: Item, s: seq<Item>, c: nat)
    requires Descending(s)
    ensures WithCount(InsertDesc(x, s), c) == WithCount(s, c) + (if x.n == c then [x] else [])
  {
    if s != [] && s[0].n >= x.n {
      InsertDescStable(x, s[1..], c);
      assert InsertDesc(x, s)[0] == s[0] && InsertDesc(x, s)[1..] == InsertDesc(x, s[1..]);
    } else if s != [] {
      assert InsertDesc(x, s)[0] == x && InsertDesc(x, s)[1..] == s;
      if x.n == c {
        WithCountBelow(s, c);
      }
    }
  }

  /**
   * The sort is stable: for every count, the items with that count appear
   * in the sorted sequence in the order they had before sorting.
   */
  lemma {:induction false} SortDescStable(s: seq<Item>, c: nat)
    ensures WithCount(SortDesc(s), c) == WithCount(s, c)
  {
    if s != [] {
      var init, last := s[..|s| - 1], s[|s| - 1];
      var tail := if last.n == c then [last] else [];
      assert s == init + [last];
      assert WithCount([last], c) == tail;
      calc {
        WithCount(SortDesc(s), c);
        WithCount(InsertDesc(last, SortDesc(init)), c);
        { SortDescSpec(init); InsertDescStable(last, SortDesc(init), c); }
        WithCount(SortDesc(init), c) + tail;
        { SortDescStable(init, c); }
        WithCount(init, c) + tail;
        { WithCountAppend(init, [last], c); }
        WithCount(s, c);
      }
    }
  }

  /** The stable order, for every count at once. */
  lemma SortDescStableAll(s: seq<Item>)
    ensures forall c: nat :: WithCount(SortDesc(s), c) == WithCount(s, c)
  {
    forall c: nat ensures WithCount(SortDesc(s), c) == WithCount(s, c) {
      SortDescStable(s, c);
    }
  }

  /** The sum of the bars' counts. */
  function SumN(s: seq<Item>): nat {
    if s == [] then 0 else s[0].n + SumN(s[1..])
  }

  lemma {:induction false} SumNInsert(x: Item, s: seq<Item>)
    ensures SumN(InsertDesc(x, s)) == x.n + SumN(s)
  {
    if s != [] && s[0].n >= x.n {
      SumNInsert(x, s[1..]);
      assert InsertDesc(x, s)[1..] == InsertDesc(x, s[1..]);
    } else if s != [] {
      assert InsertDesc(x, s)[1..] == s;
    }
  }

  lemma {:induction false} SumNSnoc(s: seq<Item>, x: Item)
    ensures SumN(s + [x]) == SumN(s) + x.n
  {
    if s != [] {
      assert (s + [x])[1..] == s[1..] + [x];
      SumNSnoc(s[1..], x);
    }
  }

  /** Sorting keeps the total. */
  lemma {:induction false} SumNSort(s: seq<Item>)
    ensures SumN(SortDesc(s)) == SumN(s)
  {
    if s != [] {
      var init := s[..|s| - 1];
      SumNSort(init);
      SumNInsert(s[|s| - 1], SortDesc(init));
      SumNSnoc(init, s[|s| - 1]);
      assert s == init + [s[|s| - 1]];
    }
  }

  /** The bars add up to the tally's total. */
  lemma {:induction false} SumNItems(t: Tally)
    ensures SumN(TallyItems(t)) == Total(t)
  {
    if t != [] {
      SumNItems(t[1..]);
      assert TallyItems(t)[1..] == TallyItems(t[1..]);
    }
  }

  /** `output.map(x => x.n).reduce((i, j) => i + j)`: with no initial value, `reduce` of nothing throws. */
  function ReduceSum(s: seq<Item>): (r: Result<nat>)
    ensures r.Ok? <==> s != []
    ensures r.Ok? ==> r.value == SumN(s)
  {
    if s == [] then Err(TypeError("Reduce of empty array with no initial value")) else Ok(SumN(s))
  }

  /** The bar rows handed to the charting library. */
  function ItemRecords(s: seq<Item>): seq<Record> {
    seq(|s|, i requires 0 <= i < |s| => map["resp" := Str(s[i].resp), "n" := Num(s[i].n as real)])
  }

  /** `params` before the flip: the title is always empty, whatever `draw` was given. */
  function BarParams(items: seq<Item>, target: string, total: nat): Request {
    map[
      Title := PStr(""),
      ChartType := PStr("bar"),
      Height := PNum(400.0),
      Width := PNum(800.0),
      Mouseover := PShareTip(target, total),
      Target := PStr(target),
      XAccessor := PStr("resp"),
      YAccessor := PStr("n"),
      Data := PRows(ItemRecords(items))
    ]
  }

  /** `if (coord_flip)`: the accessors swap, and a wide left margin and full axes are set. */
  function Flip(params: Request): Request {
    params[XAccessor := PStr("n")][YAccessor := PStr("resp")][Left := PNum(300.0)][AxesNotCompact := PBool(false)]
  }

  /** The flip leaves the rows, the tooltip, the title and the target as they were. */
  lemma FlipKeepsContent(items: seq<Item>, target: string, total: nat)
    ensures var params := BarParams(items, target, total);
      && params[Data] == Flip(params)[Data] == PRows(ItemRecords(items))
      && params[Mouseover] == Flip(params)[Mouseover] == PShareTip(target, total)
      && params[Title] == Flip(params)[Title] == PStr("")
      && params[Target] == Flip(params)[Target] == PStr(target)
  {
  }

  /** The request `draw(input, target, title, coord_flip)` hands to the charting library. */
  function BarChart(input: Tally, target: string, coordFlip: bool): Result<Request> {
    var items := SortDesc(TallyItems(input));
    match ReduceSum(items)
    case Err(f) => Err(f)
    case Ok(total) =>
      var params := BarParams(items, target, total);
      Ok(if coordFlip then Flip(params) else params)
  }

  /** `draw` throws exactly on an empty tally. */
  lemma BarChartOk(input: Tally, target: string, coordFlip: bool)
    ensures BarChart(input, target, coordFlip).Ok? <==> input != []
  {
    var items := TallyItems(input);
    SortDescSpec(items);
    if input != [] {
      assert items[0] in multiset(items);
    }
  }

  /**
   * The bars are the tally's entries, each key with its count, sorted by
   * decreasing count, entries with equal counts in the tally's order; the
   * tooltip's total is the tally's total; the title is empty.
   */
  lemma BarChartRows(input: Tally, target: string, coordFlip: bool)
    requires input != []
    ensures BarChart(input, target, coordFlip).Ok?
    ensures var r, items := BarChart(input, target, coordFlip).value, SortDesc(TallyItems(input));
      && Descending(items)
      && multiset(items) == multiset(TallyItems(input))
      && (forall c: nat :: WithCount(items, c) == WithCount(TallyItems(input), c))
      && r[Data] == PRows(ItemRecords(items))
      && r[Mouseover] == PShareTip(target, Total(input))
      && r[Title] == PStr("")
      && r[Target] == PStr(target)
  {
    BarChartOk(input, target, coordFlip);
    var items := SortDesc(TallyItems(input));
    SortDescSpec(TallyItems(input));
    SortDescStableAll(TallyItems(input));
    SumNSort(TallyItems(input));
    SumNItems(input);
    assert ReduceSum(items) == Ok(Total(input));
    var params := BarParams(items, target, Total(input));
    assert BarChart(input, target, coordFlip) == Ok(if coordFlip then Flip(params) else params);
    FlipKeepsContent(items, target, Total(input));
  }

  /**
   * Without the flip the bars run along x by answer; the flip swaps the
   * accessors, adds the left margin and full axes, and changes nothing else.
   */
  lemma BarChartFlip(input: Tally, target: string)
    requires input != []
    ensures BarChart(input, target, false).Ok? && BarChart(input, target, true).Ok?
    ensures var plain, flipped := BarChart(input, target, false).value, BarChart(input, target, true).value;
      && plain[XAccessor] == PStr("resp") && plain[YAccessor] == PStr("n")
      && Left !in plain && AxesNotCompact !in plain
      && flipped[XAccessor] == PStr("n") && flipped[YAccessor] == PStr("resp")
      && flipped[Left] == PNum(300.0) && flipped[AxesNotCompact] == PBool(false)
      && flipped.Keys == plain.Keys + {Left, AxesNotCompact}
      && forall k :: k in plain && k !in {XAccessor, YAccessor} ==> flipped[k] == plain[k]
  {
    BarChartOk(input, target, false);
    BarChartOk(input, target, true);
  }

  /** `draw(input, target, title, coord_flip)`: the `for (var type in input)` loop, then the chart. */
  method Draw(input: Tally, target: string, title: string, coordFlip: bool) returns (r: Result<Request>)
    ensures r == BarChart(input, target, coordFlip)
  {
    var output: seq<Item> := [];
    for i := 0 to |input|
      invariant output == TallyItems(input[..i])
    {
      output := output + [Item(input[i].0, input[i].1)];
    }
    assert input[..|input|] == input;
    output := SortDesc(output);
    var n := ReduceSum(output);
    if n.Err? {
      return Err(n.fault);
    }
    var params := BarParams(output, target, n.value);
    if coordFlip {
      params := Flip(params);
    }
    r := Ok(params);
  }

  // ---------------------------------------------------------------------
  // The survey callback.
  // ---------------------------------------------------------------------

  /** The questions drawn, in order. */
  const Questions: seq<string> := [
    "Why was Firefox installed on the computer you are using to complete this survey?",
    "How soon after installing Firefox did you install the first add-on / extension?",
    "Have you used the add-ons / extensions you installed before?"
  ]

  /** `horiz_coords`: every question's chart is flipped. */
  const HorizCoords: seq<bool> := [true, true, true]

  /** One `draw` call of the question loop: the question's tally, its number and its flip flag. */
  datatype QuestionChart = QuestionChart(tally: Tally, index: nat, flip: bool)

  /** `'.input' + q`. */
  function InputTarget(q: nat): string {
    ".input" + NatToString(q)
  }

  function DrawQuestion(c: QuestionChart): Result<Request> {
    BarChart(c.tally, InputTarget(c.index), c.flip)
  }

  /** The question loop's calls, in question order. */
  function QuestionCharts(tallies: seq<Tally>, flips: seq<bool>): (r: seq<QuestionChart>)
    requires |tallies| == |flips|
    ensures |r| == |tallies|
  {
    seq(|tallies|, q requires 0 <= q < |tallies| => QuestionChart(tallies[q], q, flips[q]))
  }

  /**
   * The `for (q = 0; ...)` loop: each question drawn in turn; a question
   * whose tally is empty throws and ends the callback.
   */
  method DrawQuestions(tallies: seq<Tally>, flips: seq<bool>) returns (r: Result<seq<Request>>)
    requires |tallies| == |flips|
    ensures r == DrawAll(QuestionCharts(tallies, flips), DrawQuestion)
  {
    var calls := QuestionCharts(tallies, flips);
    var out: seq<Request> := [];
    for q := 0 to |calls|
      invariant DrawAll(calls[..q], DrawQuestion) == Ok(out)
    {
      DrawAllNext(calls, DrawQuestion, q);
      var c := Draw(tallies[q], InputTarget(q), "", flips[q]);
      if c.Err? {
        DrawAllStops(calls, DrawQuestion, q + 1);
        return Err(c.fault);
      }
      out := out + [c.value];
    }
    assert calls[..|calls|] == calls;
    r := Ok(out);
  }

  /** Once a call throws, the later calls are never made. */
  lemma {:induction false} DrawAllStops(xs: seq<QuestionChart>, draw: QuestionChart -> Result<Request>, k: nat)
    requires k <= |xs| && DrawAll(xs[..k], draw).Err?
    ensures DrawAll(xs, draw) == DrawAll(xs[..k], draw)
    decreases |xs| - k
  {
    if k < |xs| {
      assert xs[..k + 1][..k] == xs[..k];
      DrawAllStops(xs, draw, k + 1);
    } else {
      assert xs[..k] == xs;
    }
  }

  /** The survey callback: the answers tallied, then every question drawn. */
  method SurveyCharts(data: seq<Row>) returns (r: Result<seq<Request>>)
    ensures r == DrawAll(QuestionCharts(TallyAll(data, Questions), HorizCoords), DrawQuestion)
  {
    var inputs := TallyAnswers(data, Questions);
    r := DrawQuestions(inputs, HorizCoords);
  }

  /**
   * The callback draws every question exactly when each question has at
   * least one row not answered with `''`; otherwise it throws.
   */
  lemma SurveyChartsOk(data: seq<Row>, questions: seq<string>, flips: seq<bool>)
    requires |questions| == |flips|
    ensures DrawAll(QuestionCharts(TallyAll(data, questions), flips), DrawQuestion).Ok?
      <==> forall q :: 0 <= q < |questions| ==> Filter(data, (r: Row) => Answered(r, questions[q])) != []
  {
    var calls := QuestionCharts(TallyAll(data, questions), flips);
    forall q | 0 <= q < |questions|
      ensures DrawQuestion(calls[q]).Ok? <==> Filter(data, (r: Row) => Answered(r, questions[q])) != []
    {
      var vals := Answers(data, questions[q]);
      BarChartOk(Tallied(vals), InputTarget(q), flips[q]);
      TalliedSpec(vals);
      AnswersAreFilter(data, questions[q]);
      if vals != [] {
        assert vals[0] in KeySet(Tallied(vals));
      }
    }
  }

  // ---------------------------------------------------------------------
  // The days-until-first-install chart.
  // ---------------------------------------------------------------------

  const ChannelField: string := "channel::filter"
  const DaysField: string := "days_to_first_install"

  /**
   * `x['channel::filter'] === 'release' & +x['days_to_first_install'] <= 7`:
   * the bitwise and of the two tests is non-zero exactly when both hold;
   * an absent or non-numeric day count is NaN, which fails the comparison.
   */
  predicate KeepDay(row: Row) {
    && ChannelField in row && row[ChannelField] == "release"
    && var n := ToNumber(Str(FieldText(row, DaysField)));
       n.Some? && n.value <= 7.0 && DaysField in row
  }

  /** The rows drawn are exactly the release rows of at most 7 days, in order. */
  lemma KeepDayRows(data: seq<Row>)
    ensures var r, ix := Filter(data, KeepDay), KeptIndices(data, KeepDay);
      && |r| == |ix|
      && (forall k :: 0 <= k < |ix| ==> ix[k] < |data| && r[k] == data[ix[k]] && KeepDay(data[ix[k]]))
      && (forall k, l :: 0 <= k < l < |ix| ==> ix[k] < ix[l])
      && (forall i :: 0 <= i < |data| && KeepDay(data[i]) ==> i in ix)
  {
    FilterExact(data, KeepDay);
  }

  /** `filtered[i]['days_to_first_install'] += ' Days'`. */
  function DaysLabelled(row: Row): Row {
    row[DaysField := FieldText(row, DaysField) + " Days"]
  }

  /** A kept row's day count is labelled in days; no other field changes. */
  lemma DaysLabelledSpec(row: Row)
    requires KeepDay(row)
    ensures var r := DaysLabelled(row);
      && r.Keys == row.Keys
      && r[DaysField] == row[DaysField] + " Days"
      && forall k :: k in row && k != DaysField ==> r[k] == row[k]
  {
  }

  /** The loop over the kept rows: each one's day count labelled in place. */
  method LabelDays(filtered: array<Row>)
    modifies filtered
    ensures forall i :: 0 <= i < filtered.Length ==> filtered[i] == DaysLabelled(old(filtered[i]))
  {
    for i := 0 to filtered.Length
      invariant forall j :: 0 <= j < i ==> filtered[j] == DaysLabelled(old(filtered[j]))
      invariant forall j :: i <= j < filtered.Length ==> filtered[j] == old(filtered[j])
    {
      var row := filtered[i];
      filtered[i] := row[DaysField := FieldText(row, DaysField) + " Days"];
    }
  }

  const DaysDescription: string :=
    "Takes the minimum difference of a client's profile_creation_date and the install_day(s) associated with each non-system, non-foreign-installed, non-shield add-on"

  /** `params0`: the labelled rows as bars of the share of add-on users by day count. */
  function DaysChart(rows: seq<Row>): (r: Request)
    ensures Data in r && r[Data] == PRows(seq(|rows|, i requires 0 <= i < |rows| => RowRecord(rows[i])))
    ensures XAccessor in r && r[XAccessor] == PStr(DaysField)
    ensures YAccessor in r && r[YAccessor] == PStr("pct_addon_users")
    ensures Target in r && r[Target] == PStr(".daysInstallChart")
  {
    map[
      Title := PStr("Days Until First Self-Install"),
      Description := PStr(DaysDescription),
      ChartType := PStr("bar"),
      Height := PNum(500.0),
      Width := PNum(700.0),
      Mouseover := PFn("days_to_first_install: pct_addon_users%"),
      Target := PStr(".daysInstallChart"),
      XAccessor := PStr(DaysField),
      YAccessor := PStr("pct_addon_users"),
      Data := PRows(seq(|rows|, i requires 0 <= i < |rows| => RowRecord(rows[i])))
    ]
  }

  /**
   * The days callback: the kept rows, labelled in place, and the chart of
   * them.
   */
  method DaysPage(data: seq<Row>) returns (filtered: array<Row>, r: Request)
    ensures fresh(filtered)
    ensures var kept := Filter(data, KeepDay);
      filtered.Length == |kept| && forall i :: 0 <= i < |kept| ==> filtered[i] == DaysLabelled(kept[i])
    ensures r == DaysChart(filtered[..])
  {
    var kept := Filter(data, KeepDay);
    filtered := new Row[|kept|](i requires 0 <= i < |kept| => kept[i]);
    LabelDays(filtered);
    r := DaysChart(filtered[..]);
  }
}
