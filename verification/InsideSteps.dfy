/** Every step that an operation takes inside its VM keeps what the operation relies on. */
module InsideSteps {
  import opened Options
  import opened OpTable
  import opened World
  import opened Invariant
  import opened Frames

  /** From this program counter, the step with this effect is harmless and leaves the holder well informed. */
  ghost predicate Good(s: State, a: Actor, e: Effect) {
    Contained(s, a, e) && Ready(s, e)
  }

  /** Only a save that has its snapshot open looks at it. */
  lemma SnapUnseen(v: View, a: Actor)
    requires ViewOk(v, a) && !Writing(a)
    ensures ViewOk(v.(snap := None), a)
  {
  }

  /** A step that changes nothing but the program counter and the source path. */
  lemma GotoGood(s: State, a: Actor, a': Actor)
    requires Knows(s, a) && SameJob(a, a') && a'.k == a.k && (Writing(a') ==> Writing(a))
    requires LocalsOk(a') && !a'.pc.Register? && !a'.pc.Settle? && GoneOk(s.cfg.coldOn, s.fs, a')
    requires ViewOk(ViewOf(s, a), a')
    ensures Good(s, a, Goto(a'))
  {
    if Writing(a') {
      assert After(s, Goto(a')) == ViewOf(s, a);
    } else {
      SnapUnseen(ViewOf(s, a), a');
      assert After(s, Goto(a')) == ViewOf(s, a).(snap := None);
    }
  }

  lemma CopyOne(from: Content, i: nat)
    requires i <= |from|
    ensures if i < |from| then from[..i] + [from[i]] == from[..i + 1] else from[..i] == from
  {
  }

  lemma HydrateNextOk(cfg: Config, v: View, a: Actor)
    requires ViewOk(v, a) && a.pc.HydrateStat? && a.held && a.hasRow && RowShape(cfg, a.row)
    ensures var a' := HydrateNext(cfg, v.hot.Some?, v.cold.Some?, a);
      ViewOk(v, a') && LocalsOk(a') && SameJob(a, a') && a'.k == a.k
      && (a'.pc.Ensure? || a'.pc.HydrateClear? || a'.pc.HydrateTmp? || a'.pc.End?)
  {
  }

  lemma HydrateStatGood(s: State, a: Actor)
    requires Knows(s, a) && a.pc.HydrateStat?
    ensures Good(s, a, HydrateStatEffect(s, a))
  {
    HydrateNextOk(s.cfg, ViewOf(s, a), a);
    GotoGood(s, a, HydrateStatEffect(s, a).a);
  }

  lemma HydrateClearGood(s: State, a: Actor)
    requires Knows(s, a) && a.pc.HydrateClear?
    ensures Good(s, a, HydrateClearEffect(a))
  {
  }

  lemma HydrateDropStaleGood(s: State, a: Actor, c: Pick)
    requires Knows(s, a) && a.pc.HydrateDropStale?
    ensures Good(s, a, HydrateDropStaleEffect(a, c))
  {
  }

  lemma HydrateTmpGood(s: State, a: Actor, c: Pick)
    requires Knows(s, a) && a.pc.HydrateTmp?
    ensures Good(s, a, HydrateTmpEffect(a, c))
  {
  }

  lemma HydrateCopyGood(s: State, a: Actor)
    requires Knows(s, a) && a.pc.HydrateCopy?
    ensures Good(s, a, HydrateCopyEffect(s, a))
  {
    CopyOne(At(s.fs, a.src), a.i);
  }

  lemma HydrateRenameGood(s: State, a: Actor)
    requires Knows(s, a) && a.pc.HydrateRename?
    ensures Good(s, a, HydrateRenameEffect(a))
  {
  }

  lemma HydrateForgetGood(s: State, a: Actor)
    requires Knows(s, a) && a.pc.HydrateForget?
    ensures Good(s, a, HydrateForgetEffect(a))
  {
  }

  lemma HydrateDropColdGood(s: State, a: Actor, c: Pick)
    requires Knows(s, a) && a.pc.HydrateDropCold?
    ensures Good(s, a, HydrateDropColdEffect(a, c))
  {
  }

  lemma HydrateCleanupGood(s: State, a: Actor)
    requires Knows(s, a) && a.pc.HydrateCleanup?
    ensures Good(s, a, HydrateCleanupEffect(a))
  {
  }

  lemma EnsureFoundGood(s: State, a: Actor)
    requires Knows(s, a) && a.pc.Ensure? && Hot(a.row.name) in s.fs
    ensures Good(s, a, EnsureEffect(s, a))
  {
  }

  lemma EnsureMissingGood(s: State, a: Actor)
    requires Knows(s, a) && a.pc.Ensure? && Hot(a.row.name) !in s.fs
    ensures Good(s, a, EnsureEffect(s, a))
  {
  }

  lemma FillGood(s: State, a: Actor, c: Pick)
    requires Knows(s, a) && a.pc.Fill?
    ensures Good(s, a, FillEffect(s, a, c))
  {
  }

  lemma EditGood(s: State, a: Actor, c: Pick)
    requires Knows(s, a) && a.pc.Edit?
    ensures Good(s, a, EditEffect(a, c))
  {
  }

  lemma ArchiveTmpGood(s: State, a: Actor, c: Pick)
    requires Knows(s, a) && a.pc.ArchiveTmp?
    ensures Good(s, a, ArchiveTmpEffect(a, c))
  {
  }

  lemma ArchiveCopyGood(s: State, a: Actor)
    requires Knows(s, a) && a.pc.ArchiveCopy? && !Canceled(s.t, a.u) && a.i < |At(s.fs, Hot(a.row.name))|
    ensures Good(s, a, ArchiveCopyEffect(s, a))
  {
    CopyOne(At(s.fs, Hot(a.row.name)), a.i);
  }

  lemma ArchiveCopiedGood(s: State, a: Actor)
    requires Knows(s, a) && a.pc.ArchiveCopy? && !Canceled(s.t, a.u) && a.i >= |At(s.fs, Hot(a.row.name))|
    ensures Good(s, a, ArchiveCopyEffect(s, a))
  {
    CopyOne(At(s.fs, Hot(a.row.name)), a.i);
    GotoGood(s, a, a.(pc := ArchiveConfirm));
  }

  lemma ArchiveCancelGood(s: State, a: Actor)
    requires Knows(s, a) && (a.pc.ArchiveCopy? || a.pc.ArchiveConfirm?)
    ensures Good(s, a, Goto(a.(pc := ArchiveCleanup)))
  {
    GotoGood(s, a, a.(pc := ArchiveCleanup));
  }

  lemma ArchiveConfirmGood(s: State, a: Actor)
    requires Knows(s, a) && a.pc.ArchiveConfirm?
    ensures Good(s, a, ArchiveConfirmEffect(s, a))
  {
  }

  lemma ArchiveDropOldGood(s: State, a: Actor)
    requires Knows(s, a) && a.pc.ArchiveDropOld?
    ensures Good(s, a, ArchiveDropOldEffect(a))
  {
  }

  lemma ArchiveRenameGood(s: State, a: Actor)
    requires Knows(s, a) && a.pc.ArchiveRename?
    ensures Good(s, a, ArchiveRenameEffect(a))
  {
  }

  lemma ArchiveRecordGood(s: State, a: Actor)
    requires Knows(s, a) && a.pc.ArchiveRecord?
    ensures Good(s, a, ArchiveRecordEffect(a))
  {
    var v := ViewOf(s, a);
    var e := ArchiveRecordEffect(a);
    assert After(s, e) == v.(row := Some(v.row.value.(archived := Some(Cold(a.row.name)))));
  }

  lemma ArchiveDropHotGood(s: State, a: Actor)
    requires Knows(s, a) && a.pc.ArchiveDropHot?
    ensures Good(s, a, ArchiveDropHotEffect(a))
  {
  }

  lemma ArchiveCleanupGood(s: State, a: Actor)
    requires Knows(s, a) && a.pc.ArchiveCleanup?
    ensures Good(s, a, ArchiveCleanupEffect(a))
  {
  }

  // The next four look at the `running` map, under the token.

  lemma ArchiveCheckGood(s: State, a: Actor)
    requires Knows(s, a) && a.pc.ArchiveCheck? && Quiet(s, a.u)
    ensures Good(s, a, Goto(a.(pc := ArchiveStat)))
  {
    GotoGood(s, a, a.(pc := ArchiveStat));
  }

  lemma DeleteCheckGood(s: State, a: Actor)
    requires Knows(s, a) && a.pc.DeleteCheck? && (a.u !in s.t.running ==> Quiet(s, a.u))
    ensures Good(s, a, DeleteCheckEffect(s, a))
  {
    GotoGood(s, a, DeleteCheckEffect(s, a).a);
  }

  lemma DeleteStopGood(s: State, a: Actor)
    requires Knows(s, a) && a.pc.DeleteStop? && Quiet(s, a.u)
    ensures Good(s, a, DeleteStopEffect(a))
  {
    GotoGood(s, a, DeleteStopEffect(a).a);
  }

  lemma SnapCheckGood(s: State, a: Actor)
    requires Knows(s, a) && a.pc.SnapCheck? && Quiet(s, a.u)
    ensures Good(s, a, Goto(a.(pc := SnapResolve)))
  {
    GotoGood(s, a, a.(pc := SnapResolve));
  }

  lemma ArchiveStatGood(s: State, a: Actor)
    requires Knows(s, a) && a.pc.ArchiveStat?
    ensures Good(s, a, ArchiveStatEffect(s, a))
  {
    GotoGood(s, a, ArchiveStatEffect(s, a).a);
  }

  lemma DeleteHotGood(s: State, a: Actor)
    requires Knows(s, a) && a.pc.DeleteHot?
    ensures Good(s, a, DeleteHotEffect(a))
  {
  }

  lemma DeleteRecordedGood(s: State, a: Actor)
    requires Knows(s, a) && a.pc.DeleteRecorded?
    ensures Good(s, a, DeleteRecordedEffect(a))
  {
  }

  lemma DeleteColdGood(s: State, a: Actor)
    requires Knows(s, a) && a.pc.DeleteCold?
    ensures Good(s, a, DeleteColdEffect(s, a))
  {
    var v := ViewOf(s, a);
    var e := DeleteColdEffect(s, a);
    assert After(s, e) == if s.cfg.coldOn then v.(cold := None, coldTmp := None) else v;
  }

  /** A carried row, however old, leads to the file that holds the VM's content. */
  lemma ResolvedSource(s: State, a: Actor, src: Path)
    requires a.hasRow && RowShape(s.cfg, a.row) && RowOk(s, a.u, a.row) && Rows(s) && DiskSeen(ViewOf(s, a), a.row.name)
    requires VmDiskPath(s.cfg, s.fs, a.row) == Ok(src)
    ensures SourceOk(ViewOf(s, a), a.(pc := SnapOpen, src := src))
  {
    assert a.u in s.rows ==> RowShape(s.cfg, s.rows[a.u]);
  }

  lemma SnapResolveFound(s: State, a: Actor, src: Path)
    requires Knows(s, a) && a.pc.SnapResolve? && SourceOk(ViewOf(s, a), a.(pc := SnapOpen, src := src))
    ensures Good(s, a, Goto(a.(pc := SnapOpen, src := src)))
  {
    GotoGood(s, a, a.(pc := SnapOpen, src := src));
  }

  lemma DoneGood(s: State, a: Actor)
    requires Knows(s, a)
    ensures Good(s, a, Goto(Done(a)))
  {
    GotoGood(s, a, Done(a));
  }

  lemma SnapOpenGood(s: State, a: Actor)
    requires Knows(s, a) && a.pc.SnapOpen? && a.src in s.fs
    ensures Good(s, a, SnapOpenEffect(a))
  {
  }

  lemma SnapCopyGood(s: State, a: Actor)
    requires Knows(s, a) && a.pc.SnapCopy? && a.i < |At(s.fs, a.src)|
    ensures Good(s, a, SnapCopyEffect(s, a))
  {
    CopyOne(At(s.fs, a.src), a.i);
  }

  lemma SnapCopiedGood(s: State, a: Actor)
    requires Knows(s, a) && a.pc.SnapCopy? && a.i >= |At(s.fs, a.src)|
    ensures Good(s, a, SnapCopyEffect(s, a))
  {
    CopyOne(At(s.fs, a.src), a.i);
    GotoGood(s, a, a.(pc := SnapCommit));
  }

  lemma FailView(v: View, a: Actor)
    requires ViewOk(v, a) && CanFail(a.pc)
    ensures ViewOk(v, FailTo(a))
  {
  }

  lemma FailShape(coldOn: bool, fs: Files, a: Actor)
    requires LocalsOk(a) && a.held && a.hasRow && CanFail(a.pc)
    ensures SameJob(a, FailTo(a)) && FailTo(a).k == a.k && !Writing(FailTo(a)) && LocalsOk(FailTo(a))
    ensures !FailTo(a).pc.Register? && !FailTo(a).pc.Settle? && GoneOk(coldOn, fs, FailTo(a))
  {
  }

  lemma FailGood(s: State, a: Actor)
    requires Knows(s, a) && CanFail(a.pc)
    ensures Good(s, a, Goto(FailTo(a)))
  {
    FailView(ViewOf(s, a), a);
    FailShape(s.cfg.coldOn, s.fs, a);
    GotoGood(s, a, FailTo(a));
  }
}
