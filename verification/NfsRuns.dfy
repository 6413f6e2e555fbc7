/** One NFS operation run on its own: convergence without clean-up, completeness of delete, and the two dialects. */
module NfsRuns {
  import opened Wrappers
  import opened Lists
  import opened Text
  import opened Faults
  import opened Decimal
  import opened Capacity
  import opened Csi
  import opened NfsMachine
  import opened NfsInvariant

  lemma StepShrinks(env: Env, v: string, s: State, op: Op, f: Fault)
    requires !op.Finished?
    ensures Remaining(Step(env, v, s, op, f).1) < Remaining(op)
  {
    hide First, Keep;
  }

  lemma OneStep(env: Env, v: string, s: State, op: Op, faults: Faults)
    requires !op.Finished?
    ensures
      var (s', op') := Step(env, v, s, op, Next(faults));
      Run(env, v, s, op, faults) == Run(env, v, s', op', Later(faults))
  {
    hide Step;
  }

  lemma RunEnds(env: Env, v: string)
    ensures forall s, outcome, faults :: Run(env, v, s, Finished(outcome), faults) == (s, Finished(outcome), faults)
  {
  }

  /** A run, whatever fails in it, ends in order and has touched nothing but the volume. */
  lemma {:induction false} RunKeeps(env: Env, v: string, s: State, op: Op, faults: Faults)
    requires Good(env, s) && OpOk(env, v, s, op)
    ensures
      var (s', op', _) := Run(env, v, s, op, faults);
      op'.Finished? && Good(env, s') && OwnChange(env, v, s, s') && OpOk(env, v, s', op')
    decreases Remaining(op)
  {
    hide Step, Own, Rest, Good, OpOk, VolumeOk;
    NoChange(env, v, s);
    if op.Finished? {
    } else {
      var (s', op') := Step(env, v, s, op, Next(faults));
      StepKeeps(env, v, s, op, Next(faults));
      OwnChangeKeepsGood(env, v, s, s');
      StepShrinks(env, v, s, op, Next(faults));
      RunKeeps(env, v, s', op', Later(faults));
    }
  }

  // Create

  /** The volume's own objects after a create whose calls all work. */
  ghost function Filled(env: Env, v: string, s: State, size: VolumeSize): Slice {
    var o, name, mountpoint := Own(env, v, s), DatasetName(env, v), Mountpoint(env, v);
    Slice(
      if o.datasets == [] then [Dataset(name, name, mountpoint, ToDecimal(size))] else o.datasets,
      if o.shares == [] then
        [if s.dialect.TakesPath? then Share(s.nextId, mountpoint, [], ShareComment(v))
         else Share(s.nextId, "", [mountpoint], ShareComment(v))]
      else o.shares)
  }

  lemma SharedRun(env: Env, v: string, s: State, size: VolumeSize)
    requires Good(env, s) && |Own(env, v, s).datasets| == 1
    ensures
      var (s', op', faults) := Run(env, v, s, FindShare(size, Mountpoint(env, v)), []);
      && op' == Finished(Provisioned(Respond(env, v, size, Mountpoint(env, v)))) && faults == []
      && Own(env, v, s') == Filled(env, v, s, size) && s'.datasets == s.datasets
      && (Own(env, v, s).shares != [] ==> s' == s)
  {
    hide Keep, First, Own, Good, Run;
    var mountpoint := Mountpoint(env, v);
    FirstOwn(env, v, s);
    OneStep(env, v, s, FindShare(size, mountpoint), []);
    var answer := Provisioned(Respond(env, v, size, mountpoint));
    RunEnds(env, v);
    if Own(env, v, s).shares == [] {
      OneStep(env, v, s, MakeShare(size, mountpoint), []);
      ShareCreated(env, v, s, s.dialect);
      if s.dialect == TakesPaths {
        OneStep(env, v, s, MakeShareOldWay(size, mountpoint), []);
      }
      RunEnds(env, v);
    }
  }

  /** From whatever earlier calls have left behind, a create whose calls all work completes the volume: it adds
      the dataset and the share that are missing and keeps the ones that are there. */
  lemma CreateConverges(env: Env, v: string, s: State, size: VolumeSize)
    requires Good(env, s)
    ensures
      var (s', op', faults) := Run(env, v, s, FindDataset(size), []);
      && op' == Finished(Provisioned(Respond(env, v, size, Mountpoint(env, v)))) && faults == []
      && Good(env, s') && Rest(env, v, s') == Rest(env, v, s)
      && Own(env, v, s') == Filled(env, v, s, size) && |Own(env, v, s').datasets| == 1 && |Own(env, v, s').shares| == 1
      && (Own(env, v, s).datasets != [] && Own(env, v, s).shares != [] ==> s' == s)
  {
    hide Keep, First, Own, Good, Run, Rest, VolumeOk;
    RunKeeps(env, v, s, FindDataset(size), []);
    FirstOwn(env, v, s);
    OneStep(env, v, s, FindDataset(size), []);
    if Own(env, v, s).datasets == [] {
      OneStep(env, v, s, MakeDataset(size), []);
      DatasetCreated(env, v, s, size);
      var s' := CreateDataset(s, DatasetName(env, v), size, Works).0;
      OwnChangeKeepsGood(env, v, s, s');
      SharedRun(env, v, s', size);
    } else {
      SharedRun(env, v, s, size);
    }
  }

  /** A create request whose calls all work: refused without any change when it asks for what is not supported or
      for a size that cannot be, and otherwise answered with the size that was asked for. */
  lemma CreateAnswers(env: Env, v: string, s: State, request: CreateRequest)
    requires Good(env, s)
    ensures
      var (s', op', _) := Run(env, v, s, StartCreate(request), []);
      if !Supported(request.capabilities, ACCESS_MODES) then s' == s && op' == Finished(Failure(InvalidArgument))
      else if !Acceptable(request.range) then s' == s && op' == Finished(Failure(OutOfRange))
      else
        && op' == Finished(Provisioned(Respond(env, v, ExtractStorage(request.range).value, Mountpoint(env, v))))
        && |Own(env, v, s').datasets| == 1 && |Own(env, v, s').shares| == 1 && Rest(env, v, s') == Rest(env, v, s)
  {
    hide Own, Good, Rest, Step;
    if Supported(request.capabilities, ACCESS_MODES) && Acceptable(request.range) {
      CreateConverges(env, v, s, ExtractStorage(request.range).value);
    }
  }

  /** An adopted dataset keeps its quota: the answer reports the stored one exactly when there was no dataset
      before, or one of the requested size. */
  lemma SizeReported(env: Env, v: string, s: State, size: VolumeSize)
    requires Good(env, s)
    ensures
      var before := Own(env, v, s).datasets;
      var (s', op', _) := Run(env, v, s, FindDataset(size), []);
      && op'.Finished? && op'.outcome.Provisioned? && op'.outcome.response.capacity == size
      && |Own(env, v, s').datasets| == 1
      && (ParseInt64(Own(env, v, s').datasets[0].refquota) == Some(size) <==>
            before == [] || ParseInt64(before[0].refquota) == Some(size))
  {
    hide Own, Good, Run, Rest, ParseInt64;
    CreateConverges(env, v, s, size);
    DecimalRoundTrip(size);
  }

  /** A create of one size and then one of another: the second answers its own size, the quota stays the first. */
  lemma SecondSizeIgnored(env: Env, v: string, s: State, first: VolumeSize, second: VolumeSize)
    requires Good(env, s) && Own(env, v, s).datasets == []
    ensures
      var s1 := Run(env, v, s, FindDataset(first), []).0;
      var (s2, op2, _) := Run(env, v, s1, FindDataset(second), []);
      && op2.Finished? && op2.outcome.Provisioned? && op2.outcome.response.capacity == second
      && |Own(env, v, s2).datasets| == 1 && ParseInt64(Own(env, v, s2).datasets[0].refquota) == Some(first)
  {
    hide Run, Own, ParseInt64, Good, Rest;
    CreateConverges(env, v, s, first);
    SizeReported(env, v, s, first);
    CreateConverges(env, v, Run(env, v, s, FindDataset(first), []).0, second);
  }

  /** For instance 1 GiB and then 16 GiB on an empty store. */
  lemma AnswersWrongSize(env: Env, v: string)
    ensures
      var small: VolumeSize, large: VolumeSize := GIB, 16 * GIB;
      var s := Run(env, v, State([], [], 1, TakesPath), FindDataset(small), []).0;
      var (s', op', _) := Run(env, v, s, FindDataset(large), []);
      && op'.Finished? && op'.outcome.Provisioned? && op'.outcome.response.capacity == 16 * GIB
      && |Own(env, v, s').datasets| == 1 && ParseInt64(Own(env, v, s').datasets[0].refquota) == Some(GIB)
  {
    hide Run, Own, ParseInt64, Good;
    EmptyGood(env, v);
    SecondSizeIgnored(env, v, State([], [], 1, TakesPath), GIB, 16 * GIB);
  }

  /** What is assumed of the store at the start can be met. */
  lemma EmptyVacant(env: Env)
    ensures Vacant(env, State([], [], 1, TakesPath))
  {
    forall v ensures Own(env, v, State([], [], 1, TakesPath)) == NOTHING {
      assert Own(env, v, State([], [], 1, TakesPath)).datasets == [];
      assert Own(env, v, State([], [], 1, TakesPath)).shares == [];
    }
  }

  lemma EmptyGood(env: Env, v: string)
    ensures Good(env, State([], [], 1, TakesPath)) && Own(env, v, State([], [], 1, TakesPath)).datasets == []
  {
    assert forall w :: VolumeOk(env, w, State([], [], 1, TakesPath));
  }

  /** A second create with the same request changes nothing and gives the same answer. */
  lemma CreateIdempotent(env: Env, v: string, s: State, size: VolumeSize)
    requires Good(env, s)
    ensures
      var first := Run(env, v, s, FindDataset(size), []);
      Run(env, v, first.0, FindDataset(size), []) == first
  {
    hide Own, Good, Run, Rest, Filled;
    CreateConverges(env, v, s, size);
    CreateConverges(env, v, Run(env, v, s, FindDataset(size), []).0, size);
  }

  /** An earlier call on the volume, of whatever size, with whatever faults. */
  datatype Attempt = TryCreate(request: CreateRequest, faults: Faults) | TryDelete(faults: Faults)

  function Attempts(env: Env, v: string, s: State, attempts: seq<Attempt>): State
    decreases |attempts|
  {
    if attempts == [] then s
    else
      var op := if attempts[0].TryCreate? then StartCreate(attempts[0].request) else StartDelete(v);
      Attempts(env, v, Run(env, v, s, op, attempts[0].faults).0, attempts[1..])
  }

  /** Any creates and deletes, of any sizes and failing in any way, then a create whose calls work: the volume is
      complete, and nothing else has changed. */
  lemma {:induction false} CreateAfterAttempts(env: Env, v: string, s: State, size: VolumeSize, attempts: seq<Attempt>)
    requires Good(env, s)
    ensures
      var (s', op', _) := Run(env, v, Attempts(env, v, s, attempts), FindDataset(size), []);
      && op' == Finished(Provisioned(Respond(env, v, size, Mountpoint(env, v))))
      && |Own(env, v, s').datasets| == 1 && |Own(env, v, s').shares| == 1 && Rest(env, v, s') == Rest(env, v, s)
    decreases |attempts|
  {
    hide Own, Good, Run, Rest, Filled;
    if attempts == [] {
      CreateConverges(env, v, s, size);
    } else {
      var op := if attempts[0].TryCreate? then StartCreate(attempts[0].request) else StartDelete(v);
      RunKeeps(env, v, s, op, attempts[0].faults);
      CreateAfterAttempts(env, v, Run(env, v, s, op, attempts[0].faults).0, size, attempts[1..]);
    }
  }

  // The two dialects

  /** Two shares that differ only in the field the directory is in. */
  ghost predicate SameShare(a: Share, b: Share) {
    a.id == b.id && a.comment == b.comment && forall dir :: Serves(a, dir) <==> Serves(b, dir)
  }

  /** Against a server of either dialect, create gives the same answer, the same datasets, and shares that read
      the same: the fallback cannot be told from the direct call. */
  lemma DialectsAgree(env: Env, v: string, s: State, t: State, size: VolumeSize)
    requires Good(env, s) && Good(env, t) && t == s.(dialect := t.dialect)
    ensures
      var (s', answer, _) := Run(env, v, s, FindDataset(size), []);
      var (t', answer', _) := Run(env, v, t, FindDataset(size), []);
      && answer == answer' && Own(env, v, s').datasets == Own(env, v, t').datasets
      && |Own(env, v, s').shares| == 1 && |Own(env, v, t').shares| == 1
      && SameShare(Own(env, v, s').shares[0], Own(env, v, t').shares[0])
  {
    hide Good, Run, Rest, Keep, VolumeOk;
    CreateConverges(env, v, s, size);
    CreateConverges(env, v, t, size);
  }

  // Delete

  ghost function Without(env: Env, v: string, s: State): State {
    s.(datasets := Rest(env, v, s).datasets, shares := Rest(env, v, s).shares)
  }

  lemma RestIsAll(env: Env, v: string, s: State)
    ensures Own(env, v, s) == NOTHING ==> Rest(env, v, s).datasets == s.datasets && Rest(env, v, s).shares == s.shares
  {
    hide Keep;
    if Own(env, v, s) == NOTHING {
      assert forall d | d in s.datasets && d.name == DatasetName(env, v) :: d in Own(env, v, s).datasets;
      assert forall share | share in s.shares && Normalise(share) == Mountpoint(env, v) ::
          share in Own(env, v, s).shares;
      KeepAll(s.datasets, Not(DatasetNamed(DatasetName(env, v))));
      KeepAll(s.shares, Not(Sharing(Mountpoint(env, v))));
    }
  }

  lemma DeleteKeepsIds(env: Env, v: string, s: State, op: Op, f: Fault)
    requires op.LookDataset? || op.DropDataset?
    ensures
      var (s', op') := Step(env, v, s, op, f);
      && s'.nextId == s.nextId
      && ((op'.DropDataset? && op.LookDataset?) || op' == Finished(Deleted) || op' == Finished(Failure(Backend)))
  {
    hide Keep, First;
  }

  /** Delete, whichever of its calls fail: it reports success exactly when every object of the volume is gone, and
      then nothing else is. When its calls work it does succeed. */
  lemma DeleteHonest(env: Env, v: string, s: State, faults: Faults)
    requires Good(env, s) && HasPrefix(v, VOLUME_PREFIX)
    ensures
      var (s', op', _) := Run(env, v, s, StartDelete(v), faults);
      && (op' == Finished(Deleted) || op' == Finished(Failure(Backend)))
      && (op' == Finished(Deleted) ==> s' == Without(env, v, s) && Own(env, v, s') == NOTHING)
      && (faults == [] ==> op' == Finished(Deleted))
      && Rest(env, v, s') == Rest(env, v, s) && s'.nextId == s.nextId && s'.dialect == s.dialect
  {
    hide Own, Good, Run, Rest, Keep, First, VolumeOk;
    RunKeeps(env, v, s, LookDataset, faults);
    OneStep(env, v, s, LookDataset, faults);
    DeleteKeepsIds(env, v, s, LookDataset, Next(faults));
    var (s1, op1) := Step(env, v, s, LookDataset, Next(faults));
    StepKeeps(env, v, s, LookDataset, Next(faults));
    if op1.DropDataset? {
      OneStep(env, v, s1, op1, Later(faults));
      DeleteKeepsIds(env, v, s1, op1, Next(Later(faults)));
      var (s2, op2) := Step(env, v, s1, op1, Next(Later(faults)));
      RunEnds(env, v);
      DatasetDeleted(env, v, s);
    } else {
      RunEnds(env, v);
    }
    RestIsAll(env, v, Run(env, v, s, LookDataset, faults).0);
  }

  /** A further delete changes nothing and succeeds. */
  lemma DeleteIdempotent(env: Env, v: string, s: State, faults: Faults)
    requires Good(env, s) && HasPrefix(v, VOLUME_PREFIX)
    ensures
      var tried := Run(env, v, s, StartDelete(v), faults).0;
      var once := Run(env, v, tried, StartDelete(v), []);
      && once == (Without(env, v, s), Finished(Deleted), [])
      && Run(env, v, once.0, StartDelete(v), []) == once
  {
    hide Own, Good, Run, Rest;
    DeleteHonest(env, v, s, faults);
    RunKeeps(env, v, s, LookDataset, faults);
    var tried := Run(env, v, s, StartDelete(v), faults).0;
    DeleteHonest(env, v, tried, []);
    RunKeeps(env, v, tried, LookDataset, []);
    var once := Run(env, v, tried, StartDelete(v), []);
    DeleteHonest(env, v, once.0, []);
    NoFaultsLeft(env, v, tried, LookDataset);
    NoFaultsLeft(env, v, once.0, LookDataset);
  }

  lemma {:induction false} NoFaultsLeft(env: Env, v: string, s: State, op: Op)
    ensures Run(env, v, s, op, []).2 == []
    decreases Remaining(op)
  {
    hide Step;
    if op.Finished? {
    } else {
      StepShrinks(env, v, s, op, Works);
      NoFaultsLeft(env, v, Step(env, v, s, op, Works).0, Step(env, v, s, op, Works).1);
    }
  }
}
