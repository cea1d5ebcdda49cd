/**
 * util/randomize_data.py: replaces every value of every record, except the
 * submission date, by a random integer, so that the charts can be shown
 * without the real counts.
 */
module RandomizeData {
  import opened Text
  import opened Values

  const Path: string := "data/addon-counts-new.json"

  /** The field the script keeps so that the charts still have their x axis. */
  const DateKey: string := "submission_date"

  /** The inclusive range drawn from for field `key`: totals are drawn from a higher range. */
  function Bounds(key: string): (int, int) {
    if Contains(key, "_total") then (10000, 20000) else (0, 10000)
  }

  /**
   * `random.randint(lo, hi)`: `raw` is the output of the random source for
   * this call, which the model takes as a parameter.
   */
  function RandInt(lo: int, hi: int, raw: nat): (r: int)
    requires lo <= hi
    ensures lo <= r <= hi
  {
    lo + raw % (hi - lo + 1)
  }

  /** `v` is an integer in the inclusive range `b`. */
  predicate InRange(v: Value, b: (int, int)) {
    v.Num? && v.x.Floor as real == v.x && b.0 as real <= v.x <= b.1 as real
  }

  /** `after` is `before` with every field but the date replaced by a draw in that field's range. */
  predicate Randomized(before: Record, after: Record) {
    && after.Keys == before.Keys
    && (DateKey in before ==> after[DateKey] == before[DateKey])
    && forall k :: k in before && k != DateKey ==> InRange(after[k], Bounds(k))
  }

  /**
   * `assign_random`'s loops over the loaded records: `draw(c)` is the
   * random source's output for the c-th call of randint.
   */
  method AssignRandom(data: array<Record>, draw: nat -> nat)
    modifies data
    ensures forall i :: 0 <= i < data.Length ==> Randomized(old(data[i]), data[i])
  {
    var calls: nat := 0;
    for i := 0 to data.Length
      invariant forall m :: 0 <= m < i ==> Randomized(old(data[m]), data[m])
      invariant forall m :: i <= m < data.Length ==> data[m] == old(data[m])
    {
      var entry := data[i];
      var todo := entry.Keys;
      var out := entry;
      while todo != {}
        invariant todo <= entry.Keys && out.Keys == entry.Keys
        invariant DateKey in entry ==> out[DateKey] == entry[DateKey]
        invariant forall k :: k in entry && k !in todo && k != DateKey ==> InRange(out[k], Bounds(k))
        decreases todo
      {
        var j :| j in todo;
        if j != DateKey {
          var (lower, upper) := Bounds(j);
          var n := RandInt(lower, upper, draw(calls));
          calls := calls + 1;
          out := out[j := Num(n as real)];
        }
        todo := todo - {j};
      }
      data[i] := out;
    }
  }

  /** `PATH.split(".")[0] + "-randomized.json"`: the path cut at its first '.'. */
  function OutputPath(path: string): (r: string)
    ensures exists stem ::
              && r == stem + "-randomized.json"
              && StartsWith(path, stem) && !Contains(stem, ".")
              && (|stem| < |path| ==> path[|stem|] == '.')
  {
    var stem := Split(path, ".")[0];
    SplitHead(path, ".");
    assert |stem| < |path| ==> path[|stem|..][..1] == ".";
    stem + "-randomized.json"
  }

  /** The script's own path gives the randomized file next to it. */
  lemma OutputPathOfDefault(stem: string, path: string)
    requires stem == "data/addon-counts-new" && path == stem + "." + "json"
    ensures OutputPath(path) == stem + "-randomized.json"
  {
    NoFirstChar(stem, ".");
    SplitAfter(stem, "json", ".");
  }

  /** A relative path such as "../data/x.json" is cut at its first '.', leaving no stem. */
  lemma OutputPathLeadingDot(path: string)
    requires |path| > 0 && path[0] == '.'
    ensures OutputPath(path) == "-randomized.json"
  {
    assert OccursAt(path, ".", 0) by { assert path[0..1] == "."; }
    IndexOfFirstChar(path, ".", 0);
    SplitFirst(path, ".", 0);
  }
}
