/** Values shared by every part of the backend: optional values, the
    `{status, message}` failure that handlers throw or store in their error
    slot, the uniform success envelope, and the two ways a sequence of
    checks picks the failure it reports. */
module Common {

  datatype Option<+T> = None | Some(value: T)

  /** The `{ status, message }` object a handler throws or a validator returns. */
  datatype Failure = Failure(status: int, message: string)

  datatype Result<+T> = Ok(value: T) | Err(error: Failure)

  /** The success envelope `{ success, status, message, dataCount, data }`. */
  datatype Reply<+T> = Reply(success: bool, status: int, message: string, dataCount: int, data: T)

  /** One guard of a validation ladder: whether it fails, and what it reports then. */
  datatype Check = Check(fails: bool, failure: Failure)

  predicate NoneFails(cs: seq<Check>) {
    forall i :: 0 <= i < |cs| ==> !cs[i].fails
  }

  /** A ladder of at most seven guards passes exactly when each of its guards does. */
  lemma NoneFailsUnrolled(cs: seq<Check>)
    requires |cs| <= 7
    ensures NoneFails(cs) <==>
              && (|cs| > 0 ==> !cs[0].fails) && (|cs| > 1 ==> !cs[1].fails)
              && (|cs| > 2 ==> !cs[2].fails) && (|cs| > 3 ==> !cs[3].fails)
              && (|cs| > 4 ==> !cs[4].fails) && (|cs| > 5 ==> !cs[5].fails)
              && (|cs| > 6 ==> !cs[6].fails)
  {
  }

  /** The failure reported by a ladder of `if (...) throw ...` guards:
      the first guard that fails stops the handler. */
  function FirstFailing(cs: seq<Check>): (r: Option<Failure>)
    ensures r.None? <==> NoneFails(cs)
    ensures r.Some? ==> exists i :: 0 <= i < |cs| && cs[i].fails && cs[i].failure == r.value
                                    && NoneFails(cs[..i])
  {
    if |cs| == 0 then None
    else if cs[0].fails then
      assert NoneFails(cs[..0]);
      Some(cs[0].failure)
    else
      var r := FirstFailing(cs[1..]);
      assert NoneFails(cs[1..]) ==> NoneFails(cs) by {
        forall i | 1 <= i < |cs| ensures cs[i] == cs[1..][i - 1] { }
      }
      if r.Some? then
        var i :| 0 <= i < |cs[1..]| && cs[1..][i].fails && cs[1..][i].failure == r.value
                 && NoneFails(cs[1..][..i]);
        assert cs[1..][..i] == cs[1..i + 1];
        assert NoneFails(cs[..i + 1]) by {
          forall j | 0 <= j < i + 1 ensures !cs[j].fails {
            if j > 0 { assert cs[j] == cs[1..][..i][j - 1]; }
          }
        }
        r
      else r
  }

  /** The failure left in the single `error` slot after a sequence of
      `if (...) error = ...` statements: each failing check overwrites it,
      so the last failing check is the one observed. */
  function LastFailing(cs: seq<Check>): (r: Option<Failure>)
    ensures r.None? <==> NoneFails(cs)
    ensures r.Some? ==> exists i :: 0 <= i < |cs| && cs[i].fails && cs[i].failure == r.value
                                    && NoneFails(cs[i + 1..])
  {
    if |cs| == 0 then None
    else
      var n := |cs| - 1;
      if cs[n].fails then
        assert NoneFails(cs[n + 1..]);
        Some(cs[n].failure)
      else
        var r := LastFailing(cs[..n]);
        assert NoneFails(cs[..n]) ==> NoneFails(cs) by {
          forall i | 0 <= i < n ensures cs[i] == cs[..n][i] { }
        }
        if r.Some? then
          var i :| 0 <= i < n && cs[..n][i].fails && cs[..n][i].failure == r.value
                   && NoneFails(cs[..n][i + 1..]);
          assert NoneFails(cs[i + 1..]) by {
            forall j | i + 1 <= j < |cs| ensures !cs[j].fails {
              if j < n { assert cs[j] == cs[..n][i + 1..][j - i - 1]; }
            }
          }
          r
        else r
  }

  /** One `if (fails) error = failure` statement. */
  function Overwrite(slot: Option<Failure>, c: Check): Option<Failure> {
    if c.fails then Some(c.failure) else slot
  }

  /** One more overwrite statement at the end of a ladder. */
  lemma LastFailingSnoc(cs: seq<Check>, c: Check)
    ensures LastFailing(cs + [c]) == Overwrite(LastFailing(cs), c)
  {
    assert (cs + [c])[..|cs|] == cs;
  }

  /** Ladders of three, four and five overwrites, statement by statement. */
  lemma LastFailingThree(c0: Check, c1: Check, c2: Check)
    ensures LastFailing([c0, c1, c2]) == Overwrite(Overwrite(Overwrite(None, c0), c1), c2)
  {
    LastFailingSnoc([], c0);
    assert [] + [c0] == [c0];
    LastFailingSnoc([c0], c1);
    assert [c0] + [c1] == [c0, c1];
    LastFailingSnoc([c0, c1], c2);
    assert [c0, c1] + [c2] == [c0, c1, c2];
  }

  lemma LastFailingFour(c0: Check, c1: Check, c2: Check, c3: Check)
    ensures LastFailing([c0, c1, c2, c3]) == Overwrite(Overwrite(Overwrite(Overwrite(None, c0), c1), c2), c3)
  {
    LastFailingThree(c0, c1, c2);
    LastFailingSnoc([c0, c1, c2], c3);
    assert [c0, c1, c2] + [c3] == [c0, c1, c2, c3];
  }

  lemma LastFailingFive(c0: Check, c1: Check, c2: Check, c3: Check, c4: Check)
    ensures LastFailing([c0, c1, c2, c3, c4])
            == Overwrite(Overwrite(Overwrite(Overwrite(Overwrite(None, c0), c1), c2), c3), c4)
  {
    LastFailingFour(c0, c1, c2, c3);
    LastFailingSnoc([c0, c1, c2, c3], c4);
    assert [c0, c1, c2, c3] + [c4] == [c0, c1, c2, c3, c4];
  }

  /** What a passing check would have reported does not matter: two
      ladders that fail at the same places with the same failures observe
      the same failure. */
  lemma {:induction false} LastFailingIgnoresPassing(cs: seq<Check>, ds: seq<Check>)
    requires |cs| == |ds|
    requires forall i :: 0 <= i < |cs| ==> cs[i].fails == ds[i].fails
    requires forall i :: 0 <= i < |cs| && cs[i].fails ==> cs[i].failure == ds[i].failure
    ensures LastFailing(cs) == LastFailing(ds)
  {
    if |cs| > 0 {
      var n := |cs| - 1;
      var cInit, dInit := cs[..n], ds[..n];
      forall i | 0 <= i < n
        ensures cInit[i].fails == dInit[i].fails
        ensures cInit[i].fails ==> cInit[i].failure == dInit[i].failure
      {
        assert cInit[i] == cs[i] && dInit[i] == ds[i];
      }
      LastFailingIgnoresPassing(cInit, dInit);
    }
  }

  /** A guard that fails with every earlier guard passing is the one reported. */
  lemma {:induction false} FirstFailingAt(cs: seq<Check>, i: nat)
    requires i < |cs| && cs[i].fails && NoneFails(cs[..i])
    ensures FirstFailing(cs) == Some(cs[i].failure)
  {
    if i > 0 {
      assert !cs[0].fails by { assert cs[0] == cs[..i][0]; }
      var tail := cs[1..];
      var before := tail[..i - 1];
      assert NoneFails(before) by {
        forall j | 0 <= j < i - 1 ensures !before[j].fails {
          assert before[j] == cs[..i][j + 1];
        }
      }
      FirstFailingAt(tail, i - 1);
    }
  }

  /** A check that fails with every later check passing is the one observed. */
  lemma {:induction false} LastFailingAt(cs: seq<Check>, i: nat)
    requires i < |cs| && cs[i].fails && NoneFails(cs[i + 1..])
    ensures LastFailing(cs) == Some(cs[i].failure)
  {
    var n := |cs| - 1;
    if i < n {
      assert !cs[n].fails by { assert cs[n] == cs[i + 1..][n - i - 1]; }
      var init := cs[..n];
      var after := init[i + 1..];
      assert NoneFails(after) by {
        forall j | 0 <= j < |after| ensures !after[j].fails {
          assert after[j] == cs[i + 1..][j];
        }
      }
      LastFailingAt(init, i);
    }
  }
}
