/** The job-id queue of a fetch round: which ids of a pending-jobs message get into it. */
module JobIds {
  import opened OtaTypes
  import opened OtaSpec

  predicate IsUsable(id: string) {
    0 < |id| <= JOBID_MAX_LENGTH
  }

  lemma UsableEmpty()
    ensures Usable([]) == []
  {
  }

  lemma {:induction false} UsableConcat(a: seq<string>, b: seq<string>)
    ensures Usable(a + b) == Usable(a) + Usable(b)
  {
    if a == [] {
      assert a + b == b;
    } else {
      assert (a + b)[1..] == a[1..] + b;
      UsableConcat(a[1..], b);
    }
  }

  /** One more id is read: it is appended exactly when it is usable. */
  lemma UsableNext(done: seq<string>, ids: seq<string>, k: nat)
    requires k < |ids|
    ensures Usable(done + ids[..k + 1]) == Usable(done + ids[..k]) + if IsUsable(ids[k]) then [ids[k]] else []
  {
    assert done + ids[..k + 1] == (done + ids[..k]) + [ids[k]];
    UsableConcat(done + ids[..k], [ids[k]]);
    assert Usable([ids[k]]) == (if IsUsable(ids[k]) then [ids[k]] else []) by {
      assert [ids[k]][1..] == [];
    }
  }

  /** Once the queue is full, nothing that follows changes it. */
  lemma FullQueue(a: seq<string>, b: seq<string>, n: nat)
    requires |Take(Usable(a), n)| == n
    ensures Take(Usable(a + b), n) == Take(Usable(a), n)
  {
    UsableConcat(a, b);
  }

  /** How many of the first `i` ids are usable. */
  function UsableBefore(ids: seq<string>, i: nat): nat
    requires i <= |ids|
  {
    if i == 0 then 0 else UsableBefore(ids, i - 1) + if IsUsable(ids[i - 1]) then 1 else 0
  }

  lemma {:induction false} CountUsable(ids: seq<string>, i: nat)
    requires i <= |ids|
    ensures |Usable(ids[..i])| == UsableBefore(ids, i)
  {
    if i > 0 {
      CountUsable(ids, i - 1);
      UsableNext([], ids, i - 1);
      assert [] + ids[..i] == ids[..i] && [] + ids[..i - 1] == ids[..i - 1];
    }
  }

  /** The queue of a round: the id at each place of the message stands in the queue at the number of usable ids
      before it, as long as that is below 50; nothing else is in the queue. */
  lemma RoundIdsAre(lists: JobLists, i: nat)
    requires lists.Lists? && i < |lists.inProgress + lists.queued|
    ensures var all, q := lists.inProgress + lists.queued, RoundIds(lists);
            && |q| == (if UsableBefore(all, |all|) < 50 then UsableBefore(all, |all|) else 50)
            && (IsUsable(all[i]) && UsableBefore(all, i) < 50 ==>
                  UsableBefore(all, i) < |q| && q[UsableBefore(all, i)] == all[i])
  {
    var all := lists.inProgress + lists.queued;
    assert all[..|all|] == all;
    CountUsable(all, |all|);
    CountUsable(all, i);
    UsableNext([], all, i);
    assert [] + all[..i + 1] == all[..i + 1] && [] + all[..i] == all[..i];
    UsableConcat(all[..i + 1], all[i + 1..]);
    assert all[..i + 1] + all[i + 1..] == all;
  }
}
