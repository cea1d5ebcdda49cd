/**
 * util/combine_results.py: copies the fields of the nightly records into
 * the release/beta records whose submission date equals their build id.
 */
module CombineResults {
  import opened Wrappers
  import opened Values

  /**
   * One record of `rrb` after the scan of `rn`: every record of `rn` whose
   * build_id equals `date` overwrites the fields it has, except build_id.
   * `date` is read once, before the scan, so a copied submission_date does
   * not change which later records match.
   */
  function JoinRecord(rec: Record, date: Value, rn: seq<Record>): Result<Record>
    decreases |rn|
  {
    if rn == [] then Ok(rec)
    else match JoinRecord(rec, date, rn[..|rn| - 1])
      case Err(f) => Err(f)
      case Ok(cur) =>
        var j := rn[|rn| - 1];
        if "build_id" !in j then Err(KeyError("build_id"))
        else if j["build_id"] == date then Ok(Overlay(cur, j, {"build_id"}))
        else Ok(cur)
  }

  /** What combine_results(rrb, rn) leaves in `rrb`, record by record. */
  function Combined(rrb: seq<Record>, rn: seq<Record>): Result<seq<Record>>
    decreases |rrb|
  {
    if rrb == [] then Ok([])
    else match Combined(rrb[..|rrb| - 1], rn)
      case Err(f) => Err(f)
      case Ok(done) =>
        var rec := rrb[|rrb| - 1];
        if "submission_date" !in rec then Err(KeyError("submission_date"))
        else match JoinRecord(rec, rec["submission_date"], rn)
          case Err(f) => Err(f)
          case Ok(out) => Ok(done + [out])
  }

  lemma {:induction false} JoinErrExtends(rec: Record, date: Value, rn: seq<Record>, n: nat)
    requires n <= |rn| && JoinRecord(rec, date, rn[..n]).Err?
    ensures JoinRecord(rec, date, rn) == JoinRecord(rec, date, rn[..n])
    decreases |rn| - n
  {
    if n < |rn| {
      assert rn[..n + 1][..n] == rn[..n];
      JoinErrExtends(rec, date, rn, n + 1);
    } else {
      assert rn[..n] == rn;
    }
  }

  lemma {:induction false} CombinedErrExtends(rrb: seq<Record>, rn: seq<Record>, n: nat)
    requires n <= |rrb| && Combined(rrb[..n], rn).Err?
    ensures Combined(rrb, rn) == Combined(rrb[..n], rn)
    decreases |rrb| - n
  {
    if n < |rrb| {
      assert rrb[..n + 1][..n] == rrb[..n];
      CombinedErrExtends(rrb, rn, n + 1);
    } else {
      assert rrb[..n] == rrb;
    }
  }

  /** The scan of `rn` for one record of `rrb` (the loop over `j in rn`), on a copy of the record. */
  method JoinInto(rec: Record, date: Value, rn: seq<Record>) returns (r: Result<Record>)
    ensures r == JoinRecord(rec, date, rn)
  {
    var cur := rec;
    for n := 0 to |rn|
      invariant JoinRecord(rec, date, rn[..n]) == Ok(cur)
    {
      assert rn[..n + 1][..n] == rn[..n];
      var j := rn[n];
      if "build_id" !in j {
        JoinErrExtends(rec, date, rn, n + 1);
        return Err(KeyError("build_id"));
      }
      if j["build_id"] == date {
        cur := CopyFields(cur, j, {"build_id"});
      }
    }
    assert rn[..|rn|] == rn;
    r := Ok(cur);
  }

  /** Combining `rrb[..i + 1]` extends combining `rrb[..i]` by record `i`. */
  lemma CombinedNext(rrb: seq<Record>, rn: seq<Record>, i: nat, done: seq<Record>)
    requires i < |rrb| && Combined(rrb[..i], rn) == Ok(done)
    ensures "submission_date" !in rrb[i] ==> Combined(rrb[..i + 1], rn) == Err(KeyError("submission_date"))
    ensures "submission_date" in rrb[i] && JoinRecord(rrb[i], rrb[i]["submission_date"], rn).Err? ==>
      Combined(rrb[..i + 1], rn) == Err(JoinRecord(rrb[i], rrb[i]["submission_date"], rn).fault)
    ensures "submission_date" in rrb[i] && JoinRecord(rrb[i], rrb[i]["submission_date"], rn).Ok? ==>
      Combined(rrb[..i + 1], rn) == Ok(done + [JoinRecord(rrb[i], rrb[i]["submission_date"], rn).value])
  {
    assert rrb[..i + 1][..i] == rrb[..i];
  }

  /** `combine_results(rrb, rn)`: updates the records of `rrb` in place and returns `rrb`. */
  method CombineResults(rrb: array<Record>, rn: seq<Record>) returns (r: Result<array<Record>>)
    modifies rrb
    ensures r.Ok? <==> Combined(old(rrb[..]), rn).Ok?
    ensures r.Ok? ==> r.value == rrb && Combined(old(rrb[..]), rn) == Ok(rrb[..])
    ensures r.Err? ==> Combined(old(rrb[..]), rn) == Err(r.fault)
  {
    ghost var orig := rrb[..];
    for i := 0 to rrb.Length
      invariant Combined(orig[..i], rn) == Ok(rrb[..i])
      invariant forall k :: i <= k < rrb.Length ==> rrb[k] == orig[k]
    {
      CombinedNext(orig, rn, i, rrb[..i]);
      if "submission_date" !in rrb[i] {
        CombinedErrExtends(orig, rn, i + 1);
        return Err(KeyError("submission_date"));
      }
      var date := rrb[i]["submission_date"];
      var out := JoinInto(rrb[i], date, rn);
      if out.Err? {
        CombinedErrExtends(orig, rn, i + 1);
        return Err(out.fault);
      }
      rrb[i] := out.value;
      assert rrb[..i + 1] == rrb[..i] + [out.value];
    }
    assert orig[..rrb.Length] == orig && rrb[..rrb.Length] == rrb[..];
    r := Ok(rrb);
  }

  // ---------------------------------------------------------------------
  // Properties

  /** The result keeps the records of `rrb` in order, each joined with `rn` on its own date. */
  lemma {:induction false} CombinedShape(rrb: seq<Record>, rn: seq<Record>)
    requires Combined(rrb, rn).Ok?
    ensures var out := Combined(rrb, rn).value;
      && |out| == |rrb|
      && forall i :: 0 <= i < |rrb| ==>
           "submission_date" in rrb[i] && JoinRecord(rrb[i], rrb[i]["submission_date"], rn) == Ok(out[i])
  {
    if rrb != [] {
      var init := rrb[..|rrb| - 1];
      CombinedShape(init, rn);
      assert forall i :: 0 <= i < |init| ==> init[i] == rrb[i];
    }
  }

  /** The scan fails exactly when a record of `rn` has no build_id. */
  lemma {:induction false} JoinRecordFails(rec: Record, date: Value, rn: seq<Record>)
    ensures JoinRecord(rec, date, rn).Err? <==> exists n :: 0 <= n < |rn| && "build_id" !in rn[n]
    ensures JoinRecord(rec, date, rn).Err? ==> JoinRecord(rec, date, rn) == Err(KeyError("build_id"))
  {
    if rn != [] {
      var init := rn[..|rn| - 1];
      JoinRecordFails(rec, date, init);
      if exists n :: 0 <= n < |init| && "build_id" !in init[n] {
        var n :| 0 <= n < |init| && "build_id" !in init[n];
        assert rn[n] == init[n];
      }
      if exists n :: 0 <= n < |rn| && "build_id" !in rn[n] {
        var n :| 0 <= n < |rn| && "build_id" !in rn[n];
        if n < |init| { assert init[n] == rn[n]; }
      }
    }
  }

  /**
   * combine_results fails exactly when a record of `rrb` has no
   * submission_date, or when `rrb` is non-empty and a record of `rn` has
   * no build_id.
   */
  lemma {:induction false} CombinedFails(rrb: seq<Record>, rn: seq<Record>)
    ensures Combined(rrb, rn).Err? <==>
      (exists i :: 0 <= i < |rrb| && "submission_date" !in rrb[i])
      || (|rrb| > 0 && exists n :: 0 <= n < |rn| && "build_id" !in rn[n])
  {
    if rrb != [] {
      var init := rrb[..|rrb| - 1];
      var rec := rrb[|rrb| - 1];
      CombinedFails(init, rn);
      if "submission_date" in rec {
        JoinRecordFails(rec, rec["submission_date"], rn);
      }
      if exists i :: 0 <= i < |init| && "submission_date" !in init[i] {
        var i :| 0 <= i < |init| && "submission_date" !in init[i];
        assert rrb[i] == init[i];
      }
      if exists i :: 0 <= i < |rrb| && "submission_date" !in rrb[i] {
        var i :| 0 <= i < |rrb| && "submission_date" !in rrb[i];
        if i < |init| { assert init[i] == rrb[i]; }
      }
    }
  }

  /** A record no record of `rn` matches comes back unchanged. */
  lemma {:induction false} JoinUnmatched(rec: Record, date: Value, rn: seq<Record>)
    requires forall n :: 0 <= n < |rn| ==> "build_id" in rn[n] && rn[n]["build_id"] != date
    ensures JoinRecord(rec, date, rn) == Ok(rec)
  {
    if rn != [] {
      JoinUnmatched(rec, date, rn[..|rn| - 1]);
    }
  }

  /** No field is removed, and build_id is never copied: the record keeps its own, or none. */
  lemma {:induction false} JoinKeepsFields(rec: Record, date: Value, rn: seq<Record>)
    requires JoinRecord(rec, date, rn).Ok?
    ensures var out := JoinRecord(rec, date, rn).value;
      && rec.Keys <= out.Keys
      && ("build_id" in out <==> "build_id" in rec)
      && ("build_id" in rec ==> out["build_id"] == rec["build_id"])
  {
    if rn != [] {
      JoinKeepsFields(rec, date, rn[..|rn| - 1]);
    }
  }

  /** A field copied from a matching record holds the value of the last matching record that has it. */
  lemma {:induction false} JoinLastMatchWins(rec: Record, date: Value, rn: seq<Record>, n: nat, k: string)
    requires JoinRecord(rec, date, rn).Ok?
    requires n < |rn| && "build_id" in rn[n] && rn[n]["build_id"] == date
    requires k in rn[n] && k != "build_id"
    requires forall m :: n < m < |rn| && "build_id" in rn[m] && rn[m]["build_id"] == date ==> k !in rn[m]
    ensures var out := JoinRecord(rec, date, rn).value; k in out && out[k] == rn[n][k]
  {
    var init := rn[..|rn| - 1];
    if n < |init| {
      assert init[n] == rn[n];
      forall m | n < m < |init| && "build_id" in init[m] && init[m]["build_id"] == date
        ensures k !in init[m]
      {
        assert init[m] == rn[m];
      }
      JoinLastMatchWins(rec, date, init, n, k);
    }
  }

  /** A field no matching record has keeps its value. */
  lemma {:induction false} JoinKeepsUntouched(rec: Record, date: Value, rn: seq<Record>, k: string)
    requires JoinRecord(rec, date, rn).Ok? && k in rec
    requires forall m :: 0 <= m < |rn| && "build_id" in rn[m] && rn[m]["build_id"] == date ==> k !in rn[m]
    ensures var out := JoinRecord(rec, date, rn).value; k in out && out[k] == rec[k]
  {
    if rn != [] {
      var init := rn[..|rn| - 1];
      forall m | 0 <= m < |init| && "build_id" in init[m] && init[m]["build_id"] == date
        ensures k !in init[m]
      {
        assert init[m] == rn[m];
      }
      JoinKeepsUntouched(rec, date, init, k);
    }
  }
}
