/**
 Replacing the vault file (`write` in `native/src/vault.rs`): temp file, fsync, one-deep backup, rename.
 Every intermediate state of the directory is kept, so that stopping anywhere can be talked about.
 */
module VaultWrite {
  import opened Bytes
  import Serde
  import opened Entries
  import opened VaultFormat
  import opened Wrappers

  /** A directory entry's content and whether it has reached stable storage. */
  datatype Slot = Slot(content: File, synced: bool)

  datatype Disk = Disk(vault: Option<Slot>, tmp: Option<Slot>, bak: Option<Slot>)

  /** How the environment answers one `write`: which calls succeed, and what half-done copies look like. */
  datatype Plan = Plan(
    sealOk: bool,
    dirOk: bool,
    openOk: bool,
    torn: seq<File>,
    writeOk: bool,
    syncOk: bool,
    bakTorn: seq<File>,
    copyOk: bool,
    renameOk: bool)

  const EMPTY: File := File([], Junk([]))

  /** The calls whose failure `write` reports; a failed backup copy is ignored. */
  predicate Committed(p: Plan)
  {
    p.sealOk && p.dirOk && p.openOk && p.writeOk && p.syncOk && p.renameOk
  }

  // ── the states a write passes through ──

  function TempStates(d: Disk, torn: seq<File>): (r: seq<Disk>)
    ensures |r| == |torn|
  {
    seq(|torn|, i requires 0 <= i < |torn| => d.(tmp := Some(Slot(torn[i], false))))
  }

  function BackupStates(d: Disk, torn: seq<File>): (r: seq<Disk>)
    ensures |r| == |torn|
  {
    seq(|torn|, i requires 0 <= i < |torn| => d.(bak := Some(Slot(torn[i], false))))
  }

  /** Opening with truncation, then writing, then fsync. */
  function TempSteps(d: Disk, out: File, p: Plan): seq<Disk>
  {
    if !(p.sealOk && p.dirOk && p.openOk) then []
    else
      var started := TempStates(d, [EMPTY] + p.torn);
      if !p.writeOk then started
      else if !p.syncOk then started + [d.(tmp := Some(Slot(out, false)))]
      else started + [d.(tmp := Some(Slot(out, false))), d.(tmp := Some(Slot(out, true)))]
  }

  function BackupSteps(d: Disk, p: Plan): seq<Disk>
  {
    if d.vault.None? then []
    else
      BackupStates(d, p.bakTorn)
      + if p.copyOk then [d.(bak := Some(Slot(d.vault.value.content, false)))] else []
  }

  function Last(d: Disk, steps: seq<Disk>): Disk
  {
    if steps == [] then d else steps[|steps| - 1]
  }

  function WriteSteps(d: Disk, out: File, p: Plan): seq<Disk>
  {
    var temp := TempSteps(d, out, p);
    if !(p.sealOk && p.dirOk && p.openOk && p.writeOk && p.syncOk) then temp
    else
      var ready := d.(tmp := Some(Slot(out, true)));
      var backup := BackupSteps(ready, p);
      if !p.renameOk then temp + backup
      else temp + backup + [Last(ready, backup).(vault := Some(Slot(out, true)), tmp := None)]
  }

  /** The directory once `write` has returned. */
  function AfterWrite(d: Disk, out: File, p: Plan): Disk
  {
    Last(d, WriteSteps(d, out, p))
  }

  // ── what stopping anywhere leaves behind ──

  /**
   Stopping after any step leaves the vault path holding the complete old content or the complete new one;
   the new one appears only with the last step of a write that reports success.
   */
  lemma StoppedWriteIsOldOrNew(d: Disk, out: File, p: Plan, i: nat)
    requires i < |WriteSteps(d, out, p)|
    ensures
      var now := WriteSteps(d, out, p)[i].vault;
      || now == d.vault
      || (now == Some(Slot(out, true)) && Committed(p) && i == |WriteSteps(d, out, p)| - 1)
  {
    var temp := TempSteps(d, out, p);
    assert forall k :: 0 <= k < |temp| ==> temp[k].vault == d.vault;
    if p.sealOk && p.dirOk && p.openOk && p.writeOk && p.syncOk {
      var backup := BackupSteps(d.(tmp := Some(Slot(out, true))), p);
      assert forall k :: 0 <= k < |backup| ==> backup[k].vault == d.vault;
    }
  }

  /** The vault path changes if and only if the write reports success, and then it holds the new content. */
  lemma WriteIsAllOrNothing(d: Disk, out: File, p: Plan)
    ensures
      var after := AfterWrite(d, out, p);
      if Committed(p) then after.vault == Some(Slot(out, true)) && after.tmp == None else after.vault == d.vault
  {
    var steps := WriteSteps(d, out, p);
    if steps != [] {
      StoppedWriteIsOldOrNew(d, out, p, |steps| - 1);
    }
  }

  /** After a successful replacement whose backup copy worked, `.bak` is the vault as it was before. */
  lemma BackupHoldsPrevious(d: Disk, out: File, p: Plan)
    requires Committed(p) && p.copyOk && d.vault.Some?
    ensures
      var after := AfterWrite(d, out, p);
      after.bak.Some? && after.bak.value.content == d.vault.value.content
  {
    var backup := BackupSteps(d.(tmp := Some(Slot(out, true))), p);
    assert backup[|backup| - 1].bak == Some(Slot(d.vault.value.content, false));
  }

  /** What may be read back under a name after power is lost: synced content survives, anything else is arbitrary. */
  ghost predicate Survives(slot: Option<Slot>, found: Option<File>)
  {
    match slot
    case None => found == None
    case Some(s) => found.Some? && (s.synced ==> found.value == s.content)
  }

  predicate SlotSynced(slot: Option<Slot>)
  {
    slot.Some? ==> slot.value.synced
  }

  function ContentOf(slot: Option<Slot>): Option<File>
  {
    if slot.Some? then Some(slot.value.content) else None
  }

  /**
   `past` is what the path has named since the directory last reached the disk, oldest first. No rename is followed by a
   sync of the directory, so losing power may bring back any of them.
   */
  ghost predicate FoundAfterPowerLoss(past: seq<Option<Slot>>, found: Option<File>)
  {
    exists k :: 0 <= k < |past| && Survives(past[k], found)
  }

  /**
   Losing power after any step of a write, whatever renames came before it: the vault path reads back as the complete
   content of some earlier save, or the complete new one, and that only at the last step of a write that succeeds.
   */
  lemma PowerLossIsSomeSave(past: seq<Option<Slot>>, d: Disk, out: File, p: Plan, i: nat, found: Option<File>)
    requires past != [] && past[|past| - 1] == d.vault && forall k :: 0 <= k < |past| ==> SlotSynced(past[k])
    requires i < |WriteSteps(d, out, p)| && FoundAfterPowerLoss(past + [WriteSteps(d, out, p)[i].vault], found)
    ensures
      || (exists k :: 0 <= k < |past| && found == ContentOf(past[k]))
      || (found == Some(out) && Committed(p) && i == |WriteSteps(d, out, p)| - 1)
  {
    var now := WriteSteps(d, out, p)[i].vault;
    var all := past + [now];
    var k :| 0 <= k < |all| && Survives(all[k], found);
    StoppedWriteIsOldOrNew(d, out, p, i);
    if k < |past| {
      assert SlotSynced(past[k]) && found == ContentOf(past[k]);
    } else if now == d.vault {
      assert SlotSynced(past[|past| - 1]) && found == ContentOf(past[|past| - 1]);
    }
  }

  // ── rotation ──

  predicate Opens(content: Option<Slot>, pw: Password, body: EntryMap)
  {
    && content.Some?
    && UnlockFile(content.value.content, pw, true).Ok?
    && UnlockFile(content.value.content, pw, true).value.body == body
  }

  /**
   A rotation stopped after any step (`i` steps done, from none to all) leaves a vault that exactly one of the two
   distinct passwords opens, and with the same entries either way.
   */
  lemma StoppedRotateKeepsEntries(
      d: Disk, body: EntryMap, oldPw: Password, oldSalt: Salt, oldParams: KdfParams, oldNonce: Nonce,
      newPw: Password, salt: Salt, params: KdfParams, nonce: Nonce, p: Plan, i: nat)
    requires oldPw != newPw && oldParams.Valid() && params.Valid()
    requires d.vault == Some(Slot(Written(body, Derived(oldPw, oldSalt, oldParams), oldSalt, oldParams, oldNonce), true))
    requires i <= |WriteSteps(d, Written(body, Derived(newPw, salt, params), salt, params, nonce), p)|
    ensures
      var steps := WriteSteps(d, Written(body, Derived(newPw, salt, params), salt, params, nonce), p);
      var now := (if i == 0 then d else steps[i - 1]).vault;
      && (Opens(now, oldPw, body) <==> !Opens(now, newPw, body))
      && now.Some?
      && (UnlockFile(now.value.content, oldPw, true).Ok? <==> !UnlockFile(now.value.content, newPw, true).Ok?)
  {
    var out := Written(body, Derived(newPw, salt, params), salt, params, nonce);
    UnlockWritten(body, oldPw, oldSalt, oldParams, oldNonce);
    UnlockWritten(body, newPw, salt, params, nonce);
    OpenedSessionOwnsFile(d.vault.value.content, oldPw, true);
    OpenedSessionOwnsFile(out, newPw, true);
    if i > 0 {
      StoppedWriteIsOldOrNew(d, out, p, i - 1);
    }
  }

  // ── the write itself, changing files step by step ──

  class VaultDir {
    var vault: Option<Slot>
    var tmp: Option<Slot>
    var bak: Option<Slot>
    ghost var history: seq<Disk>

    ghost function View(): Disk
      reads this
    {
      Disk(vault, tmp, bak)
    }

    constructor (d: Disk)
      ensures View() == d && history == []
    {
      vault, tmp, bak, history := d.vault, d.tmp, d.bak, [];
    }

    /** Puts `s` under the temp name. */
    method PutTemp(s: Slot)
      modifies this
      ensures View() == old(View()).(tmp := Some(s)) && history == old(history) + [View()]
    {
      tmp := Some(s);
      history := history + [View()];
    }

    method PutBackup(s: Slot)
      modifies this
      ensures View() == old(View()).(bak := Some(s)) && history == old(history) + [View()]
    {
      bak := Some(s);
      history := history + [View()];
    }

    method Rename()
      requires tmp.Some?
      modifies this
      ensures View() == Disk(old(tmp), None, old(bak)) && history == old(history) + [View()]
    {
      vault := tmp;
      tmp := None;
      history := history + [View()];
    }

    /** `OpenOptions::truncate` followed by `write_all`, which may stop half-way. */
    method FillTemp(out: File, p: Plan) returns (ok: bool)
      requires p.sealOk && p.dirOk && p.openOk
      modifies this
      ensures ok == (p.writeOk && p.syncOk)
      ensures history == old(history) + TempSteps(old(View()), out, p)
      ensures View() == Last(old(View()), TempSteps(old(View()), out, p))
    {
      ghost var d := View();
      ghost var started := TempStates(d, [EMPTY] + p.torn);
      PutTemp(Slot(EMPTY, false));
      for k := 0 to |p.torn|
        invariant History(old(history), started[..k + 1])
        invariant View() == started[k]
      {
        PutTemp(Slot(p.torn[k], false));
        assert started[..k + 2] == started[..k + 1] + [started[k + 1]];
      }
      assert started[..|p.torn| + 1] == started;
      if !p.writeOk {
        return false;
      }
      PutTemp(Slot(out, false));
      if !p.syncOk {
        return false;
      }
      PutTemp(Slot(out, true));
      return true;
    }

    ghost predicate History(before: seq<Disk>, since: seq<Disk>)
      reads this
    {
      history == before + since
    }

    /** `fs::copy` of the vault onto the backup name; its failure is ignored. */
    method CopyToBackup(p: Plan)
      modifies this
      ensures history == old(history) + BackupSteps(old(View()), p)
      ensures View() == Last(old(View()), BackupSteps(old(View()), p))
    {
      if vault.None? {
        return;
      }
      ghost var d := View();
      ghost var copying := BackupStates(d, p.bakTorn);
      for k := 0 to |p.bakTorn|
        invariant History(old(history), copying[..k])
        invariant View() == Last(d, copying[..k]) && vault == d.vault && tmp == d.tmp
      {
        PutBackup(Slot(p.bakTorn[k], false));
        assert copying[..k + 1] == copying[..k] + [copying[k]];
      }
      assert copying[..|p.bakTorn|] == copying;
      if p.copyOk {
        PutBackup(Slot(vault.value.content, false));
      }
    }

    /** Temp file, fsync, backup, rename. */
    method Replace(out: File, p: Plan) returns (ok: bool)
      requires p.sealOk && p.dirOk && p.openOk
      modifies this
      ensures ok == Committed(p)
      ensures history == old(history) + WriteSteps(old(View()), out, p)
      ensures View() == AfterWrite(old(View()), out, p)
    {
      ghost var d := View();
      ghost var ready := d.(tmp := Some(Slot(out, true)));
      ghost var temp := TempSteps(d, out, p);
      var filled := FillTemp(out, p);
      if !filled {
        return false;
      }
      assert View() == ready;
      CopyToBackup(p);
      ghost var backup := BackupSteps(ready, p);
      assert history == old(history) + (temp + backup);
      if !p.renameOk {
        assert Last(d, temp + backup) == Last(ready, backup);
        return false;
      }
      assert View().tmp == ready.tmp;
      Rename();
      assert View() == Last(ready, backup).(vault := Some(Slot(out, true)), tmp := None);
      return true;
    }

    method Write(body: EntryMap, key: Key, salt: Salt, params: KdfParams, nonce: Nonce, p: Plan) returns (ok: bool)
      modifies this
      ensures ok == Committed(p)
      ensures history == old(history) + WriteSteps(old(View()), Written(body, key, salt, params, nonce), p)
      ensures View() == AfterWrite(old(View()), Written(body, key, salt, params, nonce), p)
    {
      var a := BuildAad(params, salt);
      var out := File(a[..] + nonce, Sealed(key, nonce, a[..], Serde.EncodeBody(body)));
      if !(p.sealOk && p.dirOk && p.openOk) {
        return false;
      }
      ok := Replace(out, p);
    }
  }
}
