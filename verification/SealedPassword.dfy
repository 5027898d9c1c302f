/** Remembering the master password behind a biometric, against keyset installs
    that run at the same time (client/src-tauri/src/biometric.rs).

    The disk holds a keyset record and, perhaps, the sealed password (the blob).
    An enable checks the password against the record and seals it a prompt later;
    an install rewrites the record and then wipes the blob. Nothing is held
    across the two, so every file operation below is a step of its own.

    A record is named by its serial number: each write makes a record never seen
    before, and its SHA-256 digest is taken to name it uniquely. */
module SealedPassword {
  import opened Wrappers
  import opened Runs

  /** `password` is `None` for a keyset that opens with the Secret Key alone. */
  datatype Record = Record(serial: nat, password: Option<string>)

  predicate Opens(keyset: Option<Record>, password: string) {
    keyset.Some? && keyset.value.password == Some(password)
  }

  /** `Core::keyset_record_digest`: `None` without a record or when the read fails. */
  function Digest(keyset: Option<Record>, readable: bool): Option<nat> {
    if keyset.Some? && readable then Some(keyset.value.serial) else None
  }

  /** `wipe_around_install`'s test for a keyset that may have changed. */
  predicate Rewritten(installed: bool, before: Option<nat>, after: Option<nat>) {
    installed || after != before
  }

  /** `seal_password`'s test that the record it verified against is still there. */
  predicate Unchanged(before: Option<nat>, after: Option<nat>) {
    before.Some? && after == before
  }

  // ---------- one thread: the operations as they run undisturbed ----------

  datatype KeysetWipe = Nothing | Erased | Failed

  /** What a call that installs a keyset did to the record. */
  datatype Install = Untouched(succeeded: bool) | Rewrote(password: Option<string>, succeeded: bool)

  class Device {
    var keyset: Option<Record>
    var serial: nat
    var blob: Option<string>
    var secret: bool

    ghost predicate Valid()
      reads this
    {
      keyset.Some? ==> keyset.value.serial < serial
    }

    /** Both halves are attempted, the blob first; missing halves are no error. */
    method ForgetWith(blobRemovable: bool, secretRemovable: bool) returns (ok: bool)
      modifies this`blob, this`secret
      ensures blob == if blobRemovable then None else old(blob)
      ensures secret == (old(secret) && !secretRemovable)
      ensures ok <==> blob.None? && !secret
    {
      if blobRemovable {
        blob := None;
      }
      if secretRemovable {
        secret := false;
      }
      ok := blob.None? && !secret;
    }

    /** `Failed` means exactly that the sealed password is still on the device. */
    method ForgetAfterKeysetChange(blobRemovable: bool, secretRemovable: bool) returns (wipe: KeysetWipe)
      modifies this`blob, this`secret
      ensures old(blob).None? ==> wipe == Nothing && secret == old(secret)
      ensures old(blob).Some? ==> wipe != Nothing && secret == (old(secret) && !secretRemovable)
      ensures wipe == Failed <==> blob.Some?
      ensures blob.Some? ==> blob == old(blob) && !blobRemovable
    {
      if blob.None? {
        return Nothing;
      }
      var ok := ForgetWith(blobRemovable, secretRemovable);
      wipe := if ok || blob.None? then Erased else Failed;
    }

    /** An install that succeeded, or after which the record reads differently, leaves no
        sealed password behind unless it says so; any other leaves everything as it was.
        A rewrite goes unnoticed exactly when the call failed and the record could be read
        neither before (or there was none) nor after. */
    method WipeAroundInstall(install: Install, readBefore: bool, readAfter: bool,
                             blobRemovable: bool, secretRemovable: bool)
      returns (wipe: KeysetWipe)
      requires Valid()
      modifies this
      ensures Valid()
      ensures install.Rewrote? ==> keyset == Some(Record(old(serial), install.password))
      ensures install.Untouched? ==> keyset == old(keyset)
      ensures var noticed := || install.succeeded
                             || (old(keyset).Some? && readBefore != readAfter)
                             || (install.Rewrote? && readAfter);
              if noticed then (wipe == Failed <==> blob.Some?)
              else wipe == Nothing && blob == old(blob) && secret == old(secret)
      ensures blob.Some? ==> blob == old(blob)
    {
      var before := Digest(keyset, readBefore);
      match install {
        case Untouched(_) =>
        case Rewrote(password, _) =>
          keyset, serial := Some(Record(serial, password)), serial + 1;
      }
      if Rewritten(install.succeeded, before, Digest(keyset, readAfter)) {
        wipe := ForgetAfterKeysetChange(blobRemovable, secretRemovable);
      } else {
        wipe := Nothing;
      }
    }

    /** With nothing running beside it, turning the feature on either stores the
        password of the keyset on disk or leaves nothing that was not stored before. */
    method SealPassword(password: string, creates: bool, writes: bool, readBefore: bool, readAfter: bool,
                        blobRemovable: bool, secretRemovable: bool)
      returns (ok: bool)
      modifies this`blob, this`secret
      ensures ok <==> Opens(keyset, password) && creates && writes && readBefore && readAfter
      ensures ok ==> blob == Some(password) && secret
      ensures !Opens(keyset, password) ==> blob == old(blob) && secret == old(secret)
      ensures !ok && Opens(keyset, password) && blobRemovable ==> blob.None?
    {
      var before := Digest(keyset, readBefore);
      if !Opens(keyset, password) {
        return false;
      }
      ok := creates;
      if ok {
        secret := true;
        ok := writes;
      }
      if ok {
        blob := Some(password);
        ok := Unchanged(before, Digest(keyset, readAfter));
      }
      if !ok {
        var _ := ForgetWith(blobRemovable, secretRemovable);
      }
    }
  }

  // ---------- any number of enables and installs at once ----------

  type Pid = nat

  /** Where a thread stands: the step it takes next, and what it has read. */
  datatype Thread =
    | Verifying(before: Option<nat>, password: string)
    | Creating(before: Option<nat>, password: string)
    | Writing(before: Option<nat>, password: string)
    | Comparing(before: Option<nat>, password: string)
    | Undoing
    | Installing(before: Option<nat>)
    | Installed(before: Option<nat>, succeeded: bool, wrote: Option<nat>)
    | Looking
    | Wiping
    | Finished

  datatype State = State(
    keyset: Option<Record>,
    serial: nat,
    blob: Option<string>,
    threads: map<Pid, Thread>)

  datatype Event =
    | EnableBegins(p: Pid, password: string, readable: bool)
    | Verified(p: Pid, accepted: bool)
    | Created(p: Pid, ok: bool)
    | BlobWritten(p: Pid, ok: bool)
    | Compared(p: Pid, readable: bool)
    | Undone(p: Pid, deleted: bool)
    | InstallBegins(p: Pid, readable: bool)
    | InstallRan(p: Pid, install: Install)
    | InstallCompared(p: Pid, readable: bool)
    | Looked(p: Pid)
    | Wiped(p: Pid, deleted: bool)
    | Disabled(deleted: bool)

  ghost predicate Init(s: State) {
    && s.threads == map[]
    && (s.keyset.Some? ==> s.keyset.value.serial < s.serial)
    && (s.blob.Some? ==> Opens(s.keyset, s.blob.value))
  }

  function Go(s: State, p: Pid, t: Thread): State {
    s.(threads := s.threads[p := t])
  }

  function Deleted(s: State, deleted: bool): State {
    if deleted then s.(blob := None) else s
  }

  ghost predicate Next(s: State, e: Event, s': State) {
    match e
    case EnableBegins(p, password, readable) =>
      p !in s.threads && s' == Go(s, p, Verifying(Digest(s.keyset, readable), password))
    case Verified(p, accepted) =>
      && p in s.threads && s.threads[p].Verifying?
      && (accepted ==> Opens(s.keyset, s.threads[p].password))
      && s' == Go(s, p, if accepted then Creating(s.threads[p].before, s.threads[p].password) else Finished)
    case Created(p, ok) =>
      && p in s.threads && s.threads[p].Creating?
      && s' == Go(s, p, if ok then Writing(s.threads[p].before, s.threads[p].password) else Undoing)
    case BlobWritten(p, ok) =>
      && p in s.threads && s.threads[p].Writing?
      && var password := s.threads[p].password;
      s' == if ok then Go(s, p, Comparing(s.threads[p].before, password)).(blob := Some(password))
            else Go(s, p, Undoing)
    case Compared(p, readable) =>
      && p in s.threads && s.threads[p].Comparing?
      && s' == Go(s, p, if Unchanged(s.threads[p].before, Digest(s.keyset, readable)) then Finished else Undoing)
    case Undone(p, deleted) =>
      p in s.threads && s.threads[p].Undoing? && s' == Go(Deleted(s, deleted), p, Finished)
    case InstallBegins(p, readable) =>
      p !in s.threads && s' == Go(s, p, Installing(Digest(s.keyset, readable)))
    case InstallRan(p, install) =>
      && p in s.threads && s.threads[p].Installing?
      && s' == (match install
                case Untouched(ok) => Go(s, p, Installed(s.threads[p].before, ok, None))
                case Rewrote(password, ok) =>
                  Go(s, p, Installed(s.threads[p].before, ok, Some(s.serial)))
                  .(keyset := Some(Record(s.serial, password)), serial := s.serial + 1))
    case InstallCompared(p, readable) =>
      && p in s.threads && s.threads[p].Installed?
      && var after := Digest(s.keyset, readable);
      s' == Go(s, p, if Rewritten(s.threads[p].succeeded, s.threads[p].before, after) then Looking else Finished)
    case Looked(p) =>
      p in s.threads && s.threads[p].Looking? && s' == Go(s, p, if s.blob.Some? then Wiping else Finished)
    case Wiped(p, deleted) =>
      p in s.threads && s.threads[p].Wiping? && s' == Go(Deleted(s, deleted), p, Finished)
    case Disabled(deleted) =>
      s' == Deleted(s, deleted)
  }

  /** A file that was there and could not be removed. */
  ghost predicate DeleteFails(e: Event) {
    (e.Undone? || e.Wiped? || e.Disabled?) && !e.deleted
  }

  /** A failed install that had rewritten the record and could read it neither
      before nor after: it cannot tell. */
  ghost predicate Blind(s: State, e: Event) {
    && e.InstallCompared? && e.p in s.threads && s.threads[e.p].Installed?
    && !e.readable && s.threads[e.p].before.None? && !s.threads[e.p].succeeded && s.threads[e.p].wrote.Some?
  }

  ghost predicate Quiet(s: State) {
    forall p :: p in s.threads ==> s.threads[p].Finished?
  }

  ghost predicate Stale(s: State) {
    s.blob.Some? && !Opens(s.keyset, s.blob.value)
  }

  /** The thread will remove whatever blob it finds, whatever the others do. */
  ghost predicate WillWipe(s: State, t: Thread) {
    match t
    case Comparing(before, _) => !Unchanged(before, Digest(s.keyset, true))
    case Undoing => true
    case Installed(_, succeeded, wrote) => succeeded || wrote.Some?
    case Looking => true
    case Wiping => true
    case _ => false
  }

  /** What a thread's readings say about the record on disk now: serials only
      grow, so an equal serial is the very record that was read. */
  ghost predicate Grounded(s: State, t: Thread) {
    match t
    case Verifying(before, _) => before.Some? ==> before.value < s.serial
    case Creating(before, password) => Vouched(s, before, password)
    case Writing(before, password) => Vouched(s, before, password)
    case Comparing(before, password) => Vouched(s, before, password)
    case Installing(before) => before.Some? ==> before.value < s.serial
    case Installed(before, _, wrote) => wrote.Some? ==>
      s.keyset.Some? && wrote.value <= s.keyset.value.serial && (before.Some? ==> before.value < wrote.value)
    case _ => true
  }

  ghost predicate Vouched(s: State, before: Option<nat>, password: string) {
    && (before.Some? ==> before.value < s.serial)
    && (before.Some? && s.keyset.Some? && s.keyset.value.serial == before.value ==> Opens(s.keyset, password))
  }

  /** A stale blob always has a thread left that will remove it. */
  ghost predicate Inv(s: State) {
    && (s.keyset.Some? ==> s.keyset.value.serial < s.serial)
    && (forall p :: p in s.threads ==> Grounded(s, s.threads[p]))
    && (Stale(s) ==> exists p :: p in s.threads && WillWipe(s, s.threads[p]))
  }

  ghost predicate Safe(s: State, e: Event, s': State) {
    Next(s, e, s') && !DeleteFails(e) && !Blind(s, e)
  }

  lemma OthersGrounded(s: State, e: Event, s': State, q: Pid)
    requires Next(s, e, s') && (s.keyset.Some? ==> s.keyset.value.serial < s.serial)
    requires q in s.threads && q in s'.threads && s'.threads[q] == s.threads[q] && Grounded(s, s.threads[q])
    ensures Grounded(s', s'.threads[q])
  {
    assert e.InstallRan? || (s'.keyset == s.keyset && s'.serial == s.serial);
  }

  lemma InstallGrounded(s: State, e: Event, s': State)
    requires Next(s, e, s') && (s.keyset.Some? ==> s.keyset.value.serial < s.serial)
    requires e.InstallBegins? || e.InstallRan? || e.InstallCompared? || e.Looked? || e.Wiped?
    requires e.p in s.threads ==> Grounded(s, s.threads[e.p])
    ensures e.p in s'.threads && Grounded(s', s'.threads[e.p])
  {
  }

  lemma EnableGrounded(s: State, e: Event, s': State)
    requires Next(s, e, s') && (s.keyset.Some? ==> s.keyset.value.serial < s.serial)
    requires e.EnableBegins? || e.Verified? || e.Created? || e.BlobWritten? || e.Compared? || e.Undone?
    requires e.p in s.threads ==> Grounded(s, s.threads[e.p])
    ensures e.p in s'.threads && Grounded(s', s'.threads[e.p])
  {
  }

  lemma GroundedKept(s: State, e: Event, s': State, q: Pid)
    requires Next(s, e, s') && (s.keyset.Some? ==> s.keyset.value.serial < s.serial)
    requires q in s'.threads && (q in s.threads ==> Grounded(s, s.threads[q]))
    ensures Grounded(s', s'.threads[q])
  {
    if e.Disabled? || q != e.p {
      OthersGrounded(s, e, s', q);
    } else if e.InstallBegins? || e.InstallRan? || e.InstallCompared? || e.Looked? || e.Wiped? {
      InstallGrounded(s, e, s');
    } else {
      EnableGrounded(s, e, s');
    }
  }

  /** A thread that will wipe goes on to do so, or has just done it. */
  lemma WillWipeKept(s: State, e: Event, s': State, q: Pid)
    requires Safe(s, e, s') && q in s.threads && Grounded(s, s.threads[q]) && WillWipe(s, s.threads[q])
    requires s.keyset.Some? ==> s.keyset.value.serial < s.serial
    ensures s'.blob.None? || WillWipe(s', s'.threads[q])
  {
  }

  lemma InvKept(s: State, e: Event, s': State)
    requires Inv(s) && Safe(s, e, s')
    ensures Inv(s')
  {
    forall q | q in s'.threads
      ensures Grounded(s', s'.threads[q])
    {
      GroundedKept(s, e, s', q);
    }
    if Stale(s') {
      if Stale(s) {
        var q :| q in s.threads && WillWipe(s, s.threads[q]);
        WillWipeKept(s, e, s', q);
      } else {
        assert e.BlobWritten? || e.InstallRan?;
        assert WillWipe(s', s'.threads[e.p]);
      }
    }
  }

  /** Whatever enables and installs ran, in whatever order their steps fell: once
      all are done, a sealed password still on disk opens the keyset on disk. */
  lemma NoStalePasswordStaysSealed(r: Run<State, Event>)
    requires IsRun(r, Init, Next)
    requires forall i :: 0 <= i < |r.events| ==> !DeleteFails(r.events[i]) && !Blind(r.states[i], r.events[i])
    requires Quiet(r.states[|r.events|])
    ensures var s := r.states[|r.events|];
            s.blob.Some? ==> Opens(s.keyset, s.blob.value)
  {
    forall s, e, s' | Inv(s) && Safe(s, e, s')
      ensures Inv(s')
    {
      InvKept(s, e, s');
    }
    Kept(r, Safe, Inv, 0, |r.events|);
    assert Inv(r.states[|r.events|]);
  }

  /** And no less will do: where one thread alone is left to remove a stale blob, its step
      keeps the invariant exactly when it neither fails to delete nor is blind. */
  lemma LastWiperKeepsInvIff(s: State, e: Event, s': State)
    requires Inv(s) && Next(s, e, s') && !e.Disabled? && e.p in s.threads && Stale(s) && Stale(s')
    requires forall p :: p in s.threads && WillWipe(s, s.threads[p]) ==> p == e.p
    ensures Inv(s') <==> !DeleteFails(e) && !Blind(s, e)
  {
    if !DeleteFails(e) && !Blind(s, e) {
      InvKept(s, e, s');
    } else {
      forall p | p in s'.threads
        ensures !WillWipe(s', s'.threads[p])
      {
        assert p != e.p ==> s'.threads[p] == s.threads[p];
      }
    }
  }

  /** The one gap: an install that rewrote the record, failed, and could not read
      the record on either side leaves the old password sealed. */
  lemma BlindInstallLeavesStalePassword() returns (r: Run<State, Event>)
    ensures IsRun(r, Init, Next)
    ensures forall i :: 0 <= i < |r.events| ==> !DeleteFails(r.events[i])
    ensures Quiet(r.states[|r.events|]) && Stale(r.states[|r.events|])
  {
    var s0 := State(Some(Record(0, Some("old"))), 1, Some("old"), map[]);
    var s1 := Go(s0, 0, Installing(None));
    var s2 := Go(s1, 0, Installed(None, false, Some(1))).(keyset := Some(Record(1, Some("new"))), serial := 2);
    var s3 := Go(s2, 0, Finished);
    r := Run([s0, s1, s2, s3],
             [InstallBegins(0, false), InstallRan(0, Rewrote(Some("new"), false)), InstallCompared(0, false)]);
    assert "old" != "new";
    assert Next(s0, r.events[0], s1) && Next(s1, r.events[1], s2) && Next(s2, r.events[2], s3);
  }

  // ---------- which enables are kept, and which installs wipe ----------

  ghost predicate Rewrites(e: Event) {
    e.InstallRan? && e.install.Rewrote?
  }

  lemma RewriteStep(s: State, e: Event, s': State)
    requires Next(s, e, s')
    ensures s'.serial == s.serial + if Rewrites(e) then 1 else 0
    ensures if Rewrites(e) then s'.keyset == Some(Record(s.serial, e.install.password)) else s'.keyset == s.keyset
  {
  }

  lemma {:induction false} RecordStandsIff(r: Run<State, Event>, lo: nat, hi: nat)
    requires IsRun(r, Init, Next) && lo <= hi < |r.states|
    ensures r.states[lo].serial <= r.states[hi].serial
    ensures r.states[lo].keyset.Some? ==>
              r.states[hi].keyset.Some? && r.states[lo].keyset.value.serial < r.states[lo].serial
    ensures r.states[hi].keyset == r.states[lo].keyset <==> forall i :: lo <= i < hi ==> !Rewrites(r.events[i])
    ensures r.states[hi].keyset.Some? && r.states[hi].keyset != r.states[lo].keyset ==>
              r.states[lo].serial <= r.states[hi].keyset.value.serial < r.states[hi].serial
    decreases hi - lo
  {
    if lo < hi {
      RecordStandsIff(r, lo, hi - 1);
      assert Next(r.states[hi - 1], r.events[hi - 1], r.states[hi]);
      RewriteStep(r.states[hi - 1], r.events[hi - 1], r.states[hi]);
    } else {
      SerialsPast(r, lo);
    }
  }

  lemma SerialsPast(r: Run<State, Event>, i: nat)
    requires IsRun(r, Init, Next) && i < |r.states|
    ensures r.states[i].keyset.Some? ==> r.states[i].keyset.value.serial < r.states[i].serial
  {
    forall s: State, e, s': State | (s.keyset.Some? ==> s.keyset.value.serial < s.serial) && Next(s, e, s')
      ensures s'.keyset.Some? ==> s'.keyset.value.serial < s'.serial
    {
      RewriteStep(s, e, s');
    }
    Kept(r, Next, (s: State) => s.keyset.Some? ==> s.keyset.value.serial < s.serial, 0, i);
  }

  /** The enable, with what it read at its beginning, until it compares. */
  ghost predicate Enabling(s: State, p: Pid, before: Option<nat>) {
    && p in s.threads
    && match s.threads[p] {
         case Verifying(b, _) => b == before
         case Creating(b, _) => b == before
         case Writing(b, _) => b == before
         case Comparing(b, _) => b == before
         case Undoing => true
         case Finished => true
         case _ => false
       }
  }

  lemma EnablingKept(s: State, e: Event, s': State, p: Pid, before: Option<nat>)
    requires Next(s, e, s') && Enabling(s, p, before)
    ensures Enabling(s', p, before)
  {
  }

  lemma EnablingSince(r: Run<State, Event>, c: nat, d: nat, p: Pid)
    requires IsRun(r, Init, Next) && c < d < |r.states| && r.events[c].EnableBegins? && r.events[c].p == p
    ensures Enabling(r.states[d], p, Digest(r.states[c].keyset, r.events[c].readable))
  {
    var before := Digest(r.states[c].keyset, r.events[c].readable);
    assert Next(r.states[c], r.events[c], r.states[c + 1]);
    forall s, e, s' | Enabling(s, p, before) && Next(s, e, s')
      ensures Enabling(s', p, before)
    {
      EnablingKept(s, e, s', p, before);
    }
    Kept(r, Next, (s: State) => Enabling(s, p, before), c + 1, d);
  }

  /** Over every run: an enable that has written its blob keeps it if and only if there was a
      record, it could be read both times, and nobody rewrote it in between; else it goes on
      to delete what it wrote. */
  lemma EnableKeptIff(r: Run<State, Event>, c: nat, d: nat, p: Pid)
    requires IsRun(r, Init, Next) && c < d < |r.events|
    requires r.events[c].EnableBegins? && r.events[c].p == p && r.events[d].Compared? && r.events[d].p == p
    ensures p in r.states[d + 1].threads
    ensures r.states[d + 1].threads[p].Finished? || r.states[d + 1].threads[p].Undoing?
    ensures r.states[d + 1].threads[p].Finished? <==>
            && r.states[c].keyset.Some? && r.events[c].readable && r.events[d].readable
            && forall i :: c <= i < d ==> !Rewrites(r.events[i])
    ensures r.states[d + 1].blob == r.states[d].blob
  {
    EnablingSince(r, c, d, p);
    RecordStandsIff(r, c, d);
    assert Next(r.states[d], r.events[d], r.states[d + 1]);
  }

  /** An enable undisturbed, with the right password and every operation working, seals it. */
  lemma EnableSeals(s: State, p: Pid, password: string) returns (r: Run<State, Event>)
    requires p !in s.threads && Opens(s.keyset, password)
    ensures IsRun(r, Anywhere, Next) && r.states[0] == s
    ensures r.events == [EnableBegins(p, password, true), Verified(p, true), Created(p, true), BlobWritten(p, true),
                         Compared(p, true)]
    ensures r.states[5] == s.(blob := Some(password), threads := s.threads[p := Finished])
  {
    var d := Some(s.keyset.value.serial);
    var s1, s2 := Go(s, p, Verifying(d, password)), Go(s, p, Creating(d, password));
    var s3, s4 := Go(s, p, Writing(d, password)), Go(s, p, Comparing(d, password)).(blob := Some(password));
    var s5 := s.(blob := Some(password), threads := s.threads[p := Finished]);
    assert Next(s, EnableBegins(p, password, true), s1) && Next(s1, Verified(p, true), s2);
    assert Next(s2, Created(p, true), s3) && Next(s3, BlobWritten(p, true), s4) && Next(s4, Compared(p, true), s5);
    r := Run([s, s1, s2, s3, s4, s5],
             [EnableBegins(p, password, true), Verified(p, true), Created(p, true), BlobWritten(p, true),
              Compared(p, true)]);
  }

  /** The install, with what it read at its beginning and what it did. */
  ghost predicate Installs(s: State, p: Pid, before: Option<nat>, succeeded: bool) {
    p in s.threads && match s.threads[p] {
      case Installed(b, ok, _) => b == before && ok == succeeded
      case Looking => true
      case Wiping => true
      case Finished => true
      case _ => false
    }
  }

  lemma InstallsKept(s: State, e: Event, s': State, p: Pid, before: Option<nat>, succeeded: bool)
    requires Next(s, e, s') && Installs(s, p, before, succeeded)
    ensures Installs(s', p, before, succeeded)
  {
  }

  lemma InstallingKept(s: State, e: Event, s': State, p: Pid, before: Option<nat>)
    requires Next(s, e, s') && p in s.threads && s.threads[p] == Installing(before)
    ensures p in s'.threads
    ensures || s'.threads[p] == Installing(before)
            || (e.InstallRan? && e.p == p && s'.threads[p].Installed? && s'.threads[p].before == before)
  {
  }

  lemma InstallingUntil(r: Run<State, Event>, c: nat, m: nat, p: Pid)
    requires IsRun(r, Init, Next) && c < m < |r.states| && r.events[c].InstallBegins? && r.events[c].p == p
    requires forall i :: c < i < m ==> !(r.events[i].InstallRan? && r.events[i].p == p)
    ensures p in r.states[m].threads
    ensures r.states[m].threads[p] == Installing(Digest(r.states[c].keyset, r.events[c].readable))
  {
    var before := Digest(r.states[c].keyset, r.events[c].readable);
    var step := (s: State, e: Event, s': State) => Next(s, e, s') && !(e.InstallRan? && e.p == p);
    assert Next(r.states[c], r.events[c], r.states[c + 1]);
    forall s: State, e, s': State | p in s.threads && s.threads[p] == Installing(before) && step(s, e, s')
      ensures p in s'.threads && s'.threads[p] == Installing(before)
    {
      InstallingKept(s, e, s', p, before);
    }
    Kept(r, step, (s: State) => p in s.threads && s.threads[p] == Installing(before), c + 1, m);
  }

  /** Over every run: an install goes on to wipe if and only if it succeeded, or a record that
      was there could be read only once, or the record can be read at the end and anybody
      rewrote it meanwhile. */
  lemma InstallWipesIff(r: Run<State, Event>, c: nat, m: nat, d: nat, p: Pid)
    requires IsRun(r, Init, Next) && c < m < d < |r.events|
    requires r.events[c].InstallBegins? && r.events[m].InstallRan? && r.events[d].InstallCompared?
    requires r.events[c].p == p && r.events[m].p == p && r.events[d].p == p
    requires forall i :: c < i < m ==> !(r.events[i].InstallRan? && r.events[i].p == p)
    ensures p in r.states[d + 1].threads
    ensures r.states[d + 1].threads[p].Looking? || r.states[d + 1].threads[p].Finished?
    ensures r.states[d + 1].threads[p].Looking? <==>
            || r.events[m].install.succeeded
            || (r.states[c].keyset.Some? && r.events[c].readable != r.events[d].readable)
            || (r.events[d].readable && exists i :: c <= i < d && Rewrites(r.events[i]))
  {
    var before, ok := Digest(r.states[c].keyset, r.events[c].readable), r.events[m].install.succeeded;
    InstallingUntil(r, c, m, p);
    assert Next(r.states[m], r.events[m], r.states[m + 1]) && Next(r.states[d], r.events[d], r.states[d + 1]);
    forall s, e, s' | Installs(s, p, before, ok) && Next(s, e, s')
      ensures Installs(s', p, before, ok)
    {
      InstallsKept(s, e, s', p, before, ok);
    }
    Kept(r, Next, (s: State) => Installs(s, p, before, ok), m + 1, d);
    assert Installs(r.states[d], p, before, ok);
    RecordStandsIff(r, c, d);
  }

  /** Wiping, where a blob is found and can be deleted, leaves none. */
  lemma WipeDeletes(s: State, p: Pid) returns (r: Run<State, Event>)
    requires p in s.threads && s.threads[p].Looking? && s.blob.Some?
    ensures IsRun(r, Anywhere, Next) && r.states[0] == s && r.events == [Looked(p), Wiped(p, true)]
    ensures r.states[2].blob.None? && r.states[2].keyset == s.keyset
  {
    var s1 := Go(s, p, Wiping);
    var s2 := Go(s1, p, Finished).(blob := None);
    assert Next(s, Looked(p), s1) && Next(s1, Wiped(p, true), s2);
    r := Run([s, s1, s2], [Looked(p), Wiped(p, true)]);
  }

  /** The blob changes only by an enable that writes its password, or by a delete of one that
      undoes, wipes or turns the feature off. */
  lemma BlobChangesOnlyBy(s: State, e: Event, s': State)
    requires Next(s, e, s') && s'.blob != s.blob
    ensures s'.blob.Some? ==> e.BlobWritten? && s.threads[e.p].Writing? && s'.blob.value == s.threads[e.p].password
    ensures s'.blob.None? ==> (e.Undone? || e.Wiped? || e.Disabled?) && e.deleted
  {
  }

  predicate PastVerifying(t: Thread) {
    t.Creating? || t.Writing? || t.Comparing? || t.Undoing?
  }

  /** An enable whose password was accepted writes a blob only if the secret was created, and
      ends only by finding the record unchanged with its blob written, or by having tried to
      delete what it stored. */
  lemma EnableEndsBy(s: State, e: Event, s': State, p: Pid)
    requires Next(s, e, s') && p in s.threads && PastVerifying(s.threads[p])
    ensures p in s'.threads && (PastVerifying(s'.threads[p]) || s'.threads[p].Finished?)
    ensures s'.threads[p].Writing? && !s.threads[p].Writing? ==> e == Created(p, true)
    ensures s'.threads[p].Comparing? && !s.threads[p].Comparing? ==>
              e == BlobWritten(p, true) && s'.blob == Some(s.threads[p].password)
    ensures s'.threads[p].Finished? ==>
              || (e.Undone? && e.p == p)
              || (e.Compared? && e.p == p && s.threads[p].Comparing? && s.threads[p].before.Some?
                  && s.threads[p].before == Digest(s.keyset, true))
  {
  }

  /** A password is sealed only if it was accepted, against the record of that moment. */
  lemma AcceptedOnlyIfOpens(s: State, e: Event, s': State, p: Pid)
    requires Next(s, e, s') && p in s'.threads && s'.threads[p].Creating?
    requires !(p in s.threads && s.threads[p].Creating?)
    ensures e == Verified(p, true) && Opens(s.keyset, s'.threads[p].password)
  {
  }

  ghost predicate FoundBlob(r: Run<State, Event>, i: nat, p: Pid)
    requires r.Shaped()
  {
    i < |r.events| && r.events[i] == Looked(p) && r.states[i].blob.Some?
  }

  lemma ReachesWiping(s: State, e: Event, s': State, p: Pid)
    requires Next(s, e, s') && p in s'.threads && s'.threads[p].Wiping? && !(p in s.threads && s.threads[p].Wiping?)
    ensures e == Looked(p) && s.blob.Some?
  {
  }

  /** An install deletes only after it has found a blob. */
  lemma {:induction false} WipesOnlyWhatItFound(r: Run<State, Event>, n: nat, p: Pid)
    requires IsRun(r, Init, Next) && n < |r.states| && p in r.states[n].threads && r.states[n].threads[p].Wiping?
    ensures exists i: nat :: i < n && FoundBlob(r, i, p)
  {
    if n > 0 {
      assert Next(r.states[n - 1], r.events[n - 1], r.states[n]);
      if p in r.states[n - 1].threads && r.states[n - 1].threads[p].Wiping? {
        WipesOnlyWhatItFound(r, n - 1, p);
      } else {
        ReachesWiping(r.states[n - 1], r.events[n - 1], r.states[n], p);
        assert FoundBlob(r, n - 1, p);
      }
    }
  }
}
