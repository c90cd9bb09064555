/** What `update` guarantees, stated over the transition function `Step`
    and over runs of several messages. */
module DashboardFacts {
  import opened Text
  import opened Inventory
  import opened Dashboard

  /** A loaded inventory becomes all hosts and the whole selection; both
      job slots are emptied; the log and the git ref are left alone. */
  lemma LoadedInventoryResetsSelection(s: State, data: string)
    ensures var t := Step(s, InventoryLoaded(data));
      t.inventory == Parse(data) && t.hostsAll == t.inventory && t.hostsPicked == t.inventory &&
      t.job == None && t.jobOnload == None &&
      t.messages == s.messages && t.gitref == s.gitref
  {
  }

  /** `InventoryLoad` always leaves a job in the slot: the fetch. */
  lemma InventoryLoadOccupiesSlot(s: State)
    ensures HasJob(Step(s, InventoryLoad))
    ensures Step(s, InventoryLoad) == s.(job := Some(InventoryFetch))
  {
  }

  /** `Deploy`: with a long enough git ref and an inventory, the log is
      cleared and the deploy interval runs; otherwise exactly one
      complaint is logged and the job is untouched. Hosts and the git ref
      never change. The log ends empty exactly when the deploy started. */
  lemma DeployOutcome(s: State)
    ensures var t := Step(s, Deploy);
      t.gitref == s.gitref && t.inventory == s.inventory &&
      t.hostsAll == s.hostsAll && t.hostsPicked == s.hostsPicked &&
      t.jobOnload == s.jobOnload &&
      (CanDeploy(s.gitref, s.inventory) ==> t.messages == [] && t.job == Some(DeployJob)) &&
      (!CanDeploy(s.gitref, s.inventory) ==> t.messages == s.messages + [NoGitRefGiven] && t.job == s.job) &&
      (t.messages == [] <==> CanDeploy(s.gitref, s.inventory))
  {
  }

  /** The guard counts bytes, not characters: two two-byte characters
      pass it, three ASCII characters do not. */
  lemma DeployGuardCountsBytes(inventory: seq<string>)
    requires |inventory| > 0
    ensures CanDeploy("éé", inventory)
    ensures !CanDeploy("abc", inventory)
  {
    assert "éé"[1..] == "é";
    assert "abc"[1..] == "bc" && "bc"[1..] == "c";
  }

  /** `Abort` empties the slot and logs "Aborted!" whether or not a job ran. */
  lemma AbortClearsSlot(s: State)
    ensures !HasJob(Step(s, Abort))
    ensures Step(s, Abort) == s.(job := None, messages := s.messages + [Aborted])
  {
  }

  /** Aborting twice is harmless: the slot is empty after each abort and
      the log gains one "Aborted!" per call. */
  lemma AbortTwice(s: State)
    ensures !HasJob(Step(s, Abort)) && !HasJob(Run(s, [Abort, Abort]))
    ensures Run(s, [Abort, Abort]).messages == s.messages + [Aborted, Aborted]
    ensures Run(s, [Abort, Abort]) == Step(Step(s, Abort), Abort)
  {
    assert [Abort, Abort][1..] == [Abort];
  }

  /** `Done` logs "Done!" and empties the slot; `InvokeProcess` logs
      "InvokeProcess!" and replaces the job by the `Done` timeout. */
  lemma DoneAndInvokeProcess(s: State)
    ensures Step(s, Done) == s.(job := None, messages := s.messages + [DoneMessage])
    ensures HasJob(Step(s, InvokeProcess)) && Step(s, InvokeProcess).job == Some(DoneJob)
    ensures Step(s, InvokeProcess) == s.(job := Some(DoneJob), messages := s.messages + [InvokeProcessMessage])
  {
  }

  /** The input messages touch one field each, or none. */
  lemma InputsChangeOneField(s: State, ref: string, selected: seq<string>, value: string, names: seq<string>)
    ensures Step(s, SetGitRef(ref)) == s.(gitref := ref)
    ensures Step(s, SetOrUnsetHost(Select(selected))) == s.(hostsPicked := selected)
    ensures Step(s, SetOrUnsetHost(Value(value))) == s
    ensures Step(s, SetOrUnsetHost(Files(names))) == s
    ensures Step(s, InventoryFetching) == s
  {
  }

  /** Delivering two message lists one after the other is delivering
      their concatenation. */
  lemma {:induction false} RunConcat(s: State, a: seq<Msg>, b: seq<Msg>)
    ensures Run(s, a + b) == Run(Run(s, a), b)
    decreases |a|
  {
    if |a| > 0 {
      assert (a + b)[0] == a[0];
      assert (a + b)[1..] == a[1..] + b;
      RunConcat(Step(s, a[0]), a[1..], b);
    } else {
      assert a + b == b;
    }
  }

  /** One fetch round trip: request the inventory, then deliver what the
      fetch callback makes of the response. On success the parsed body is
      installed and both slots are empty; otherwise only the fetch job
      remains and nothing else changed. */
  lemma FetchRoundTrip(s: State, response: Response)
    ensures var t := Run(s, [InventoryLoad, OnFetch(response)]);
      var body := if response.body.Ok? then response.body.text else "";
      (IsSuccess(response.status) ==>
         t.job == None && t.jobOnload == None &&
         t.inventory == Parse(body) && t.hostsAll == t.inventory && t.hostsPicked == t.inventory &&
         t.messages == s.messages && t.gitref == s.gitref) &&
      (!IsSuccess(response.status) ==> t == s.(job := Some(InventoryFetch)))
  {
    var ms := [InventoryLoad, OnFetch(response)];
    var loading := Step(s, InventoryLoad);
    assert ms[1..] == [OnFetch(response)];
    assert Run(s, ms) == Run(loading, [OnFetch(response)]);
    assert Run(loading, [OnFetch(response)]) == Step(loading, OnFetch(response));
  }

  /** The shape every reachable state has: the inventory and all hosts
      are one list, the auto-load slot holds only the one-second interval,
      and the job slot holds only one of the three jobs `update` creates. */
  predicate Consistent(s: State)
  {
    s.inventory == s.hostsAll &&
    (s.jobOnload == None || s.jobOnload == Some(OnloadJob)) &&
    (s.job == None || s.job == Some(InventoryFetch) || s.job == Some(DeployJob) || s.job == Some(DoneJob))
  }

  lemma InitConsistent()
    ensures Consistent(Init())
  {
  }

  lemma StepConsistent(s: State, m: Msg)
    requires Consistent(s)
    ensures Consistent(Step(s, m))
  {
  }

  /** Every state reached from a consistent one is consistent. */
  lemma {:induction false} RunConsistent(s: State, ms: seq<Msg>)
    requires Consistent(s)
    ensures Consistent(Run(s, ms))
    decreases |ms|
  {
    if |ms| > 0 {
      StepConsistent(s, ms[0]);
      RunConsistent(Step(s, ms[0]), ms[1..]);
    }
  }

  /** Every state reached from `create` is consistent. */
  lemma ReachableConsistent(ms: seq<Msg>)
    ensures Consistent(Run(Init(), ms))
  {
    InitConsistent();
    RunConsistent(Init(), ms);
  }

  /** The picked hosts are among all hosts. */
  predicate PickedWithinAll(s: State)
  {
    forall h :: h in s.hostsPicked ==> h in s.hostsAll
  }

  /** A message the host list can send in state `s`: a selection is made
      of the options on display, which are all hosts. */
  predicate Offered(s: State, m: Msg)
  {
    m.SetOrUnsetHost? && m.change.Select? ==> forall h :: h in m.change.selected ==> h in s.hostsAll
  }

  /** Offered messages never pick a host outside all hosts. */
  lemma {:induction false} RunKeepsPickedWithinAll(s: State, ms: seq<Msg>)
    requires PickedWithinAll(s)
    requires forall i :: 0 <= i < |ms| ==> Offered(Run(s, ms[..i]), ms[i])
    ensures PickedWithinAll(Run(s, ms))
    decreases |ms|
  {
    if |ms| > 0 {
      var t := Step(s, ms[0]);
      assert ms[..0] == [];
      assert Offered(s, ms[0]);
      forall i | 0 <= i < |ms| - 1
        ensures Offered(Run(t, ms[1..][..i]), ms[1..][i])
      {
        assert ms[..i + 1] == [ms[0]] + ms[1..][..i];
        RunConcat(s, [ms[0]], ms[1..][..i]);
        assert [ms[0]][1..] == [];
        assert Offered(Run(s, ms[..i + 1]), ms[i + 1]);
      }
      RunKeepsPickedWithinAll(t, ms[1..]);
    }
  }

  /** The log is only appended to, except by a `Deploy`. */
  lemma {:induction false} LogOnlyGrowsWithoutDeploy(s: State, ms: seq<Msg>)
    requires forall i :: 0 <= i < |ms| ==> ms[i] != Deploy
    ensures s.messages <= Run(s, ms).messages
    decreases |ms|
  {
    if |ms| > 0 {
      var t := Step(s, ms[0]);
      assert s.messages <= t.messages;
      LogOnlyGrowsWithoutDeploy(t, ms[1..]);
    }
  }

  /** Once the auto-load job is gone nothing arms it again. */
  lemma {:induction false} OnloadNeverRearmed(s: State, ms: seq<Msg>)
    requires s.jobOnload == None
    ensures Run(s, ms).jobOnload == None
    decreases |ms|
  {
    if |ms| > 0 {
      OnloadNeverRearmed(Step(s, ms[0]), ms[1..]);
    }
  }

  /** A short git ref straight after `create`: one complaint, no job. */
  lemma ShortGitRefRefused()
    ensures Run(Init(), [SetGitRef("ab"), Deploy]).messages == [NoGitRefGiven]
    ensures !HasJob(Run(Init(), [SetGitRef("ab"), Deploy]))
  {
    var ms := [SetGitRef("ab"), Deploy];
    assert ms[1..] == [Deploy];
    assert Utf8Len("ab") == 2 by {
      assert "ab"[1..] == "b";
    }
  }

  /** A long git ref is refused too while no inventory is loaded, with the
      same "No GitRef given!" message. */
  lemma EmptyInventoryRefused()
    ensures Run(Init(), [SetGitRef("release-42"), Deploy]).messages == [NoGitRefGiven]
  {
    var ms := [SetGitRef("release-42"), Deploy];
    assert ms[1..] == [Deploy];
  }

  /** A deploy in this version runs one tick: the interval's first
      `InvokeProcess` replaces it by the `Done` timeout, whose firing
      ends the job. */
  lemma DeployLifecycle(s: State)
    requires CanDeploy(s.gitref, s.inventory)
    ensures Run(s, [Deploy]).messages == [] && Run(s, [Deploy]).job == Some(DeployJob)
    ensures Run(s, [Deploy, InvokeProcess]).messages == [InvokeProcessMessage]
    ensures Run(s, [Deploy, InvokeProcess]).job == Some(DoneJob)
    ensures Run(s, [Deploy, InvokeProcess, Done]).messages == [InvokeProcessMessage, DoneMessage]
    ensures !HasJob(Run(s, [Deploy, InvokeProcess, Done]))
  {
    var ms := [Deploy, InvokeProcess, Done];
    assert ms[1..] == [InvokeProcess, Done];
    assert ms[1..][1..] == [Done];
    assert [Deploy, InvokeProcess][1..] == [InvokeProcess];
  }
}
