/** Replacing the operational certificate and key: two backup copies, then two writes, with a crash anywhere. */
module CertRenewal {
  import opened Wrappers

  /** A certificate and a key belong together when they come from the same issue. */
  datatype Pem = Pem(issue: nat)

  datatype Store = Store(cert: Option<Pem>, key: Option<Pem>, backupCert: Option<Pem>, backupKey: Option<Pem>)

  predicate Match(cert: Option<Pem>, key: Option<Pem>) {
    cert.Some? && key.Some? && cert.value.issue == key.value.issue
  }

  predicate LiveMatches(s: Store) { Match(s.cert, s.key) }

  predicate BackupMatches(s: Store) { Match(s.backupCert, s.backupKey) }

  /** A usable pair is still on disk. */
  predicate Recoverable(s: Store) { LiveMatches(s) || BackupMatches(s) }

  /** The outcome of each file operation; a failed copy is ignored, a failed write ends the renewal. */
  datatype Plan = Plan(copyCert: bool, copyKey: bool, writeCert: bool, writeKey: bool)

  function CopyCert(s: Store, p: Plan): Store {
    if s.cert.Some? && p.copyCert then s.(backupCert := s.cert) else s
  }

  /** The key is copied only when a certificate is there, and cannot be copied when it is missing itself. */
  function CopyKey(s: Store, p: Plan): Store {
    if s.cert.Some? && s.key.Some? && p.copyKey then s.(backupKey := s.key) else s
  }

  function WriteCert(s: Store, p: Plan, issue: nat): Store {
    if p.writeCert then s.(cert := Some(Pem(issue))) else s
  }

  function WriteKey(s: Store, p: Plan, issue: nat): Store {
    if p.writeCert && p.writeKey then s.(key := Some(Pem(issue))) else s
  }

  /** The disk after the first `steps` of the four operations, which is where a crash leaves it. */
  function After(s: Store, p: Plan, issue: nat, steps: nat): Store {
    var s1 := if steps >= 1 then CopyCert(s, p) else s;
    var s2 := if steps >= 2 then CopyKey(s1, p) else s1;
    var s3 := if steps >= 3 then WriteCert(s2, p, issue) else s2;
    if steps >= 4 then WriteKey(s3, p, issue) else s3
  }

  /** Each operation's effect, on the file it writes and on no other. */
  lemma Operations(s: Store, p: Plan, issue: nat)
    ensures After(s, p, issue, 0) == s
    ensures After(s, p, issue, 1) ==
              Store(s.cert, s.key, if s.cert.Some? && p.copyCert then s.cert else s.backupCert, s.backupKey)
    ensures var s1 := After(s, p, issue, 1);
      After(s, p, issue, 2) == Store(s1.cert, s1.key, s1.backupCert,
                                     if s.cert.Some? && s.key.Some? && p.copyKey then s.key else s.backupKey)
    ensures var s2 := After(s, p, issue, 2);
      After(s, p, issue, 3) == Store(if p.writeCert then Some(Pem(issue)) else s.cert, s2.key,
                                     s2.backupCert, s2.backupKey)
    ensures var s3 := After(s, p, issue, 3);
      After(s, p, issue, 4) == Store(s3.cert, if p.writeCert && p.writeKey then Some(Pem(issue)) else s.key,
                                     s3.backupCert, s3.backupKey)
  {
  }

  /** A pair is usable when both halves are there and are of one issue, live or as the backup. */
  lemma RecoverableIff(s: Store)
    ensures Recoverable(s) <==>
              || (s.cert.Some? && s.key == s.cert)
              || (s.backupCert.Some? && s.backupKey == s.backupCert)
  {
  }

  ghost predicate AlwaysRecoverable(s: Store, p: Plan, issue: nat) {
    forall steps: nat :: Recoverable(After(s, p, issue, steps))
  }

  /** Neither half of a new pair matches anything already on disk. */
  predicate Fresh(s: Store, issue: nat) {
    && (s.cert.Some? ==> s.cert.value.issue != issue)
    && (s.key.Some? ==> s.key.value.issue != issue)
    && (s.backupCert.Some? ==> s.backupCert.value.issue != issue)
    && (s.backupKey.Some? ==> s.backupKey.value.issue != issue)
  }

  /**
   From a matching live pair, a renewal is safe at every crash point exactly when the live certificate is never
   overwritten or the two copies leave a matching backup: both taken, or neither with an old backup that matches,
   or one taken onto the other half of the very same issue.
   */
  lemma SafeRenewalIff(s: Store, p: Plan, issue: nat)
    requires LiveMatches(s) && Fresh(s, issue)
    ensures AlwaysRecoverable(s, p, issue) <==>
              || !p.writeCert
              || (p.copyCert && p.copyKey)
              || (!p.copyCert && !p.copyKey && BackupMatches(s))
              || (p.copyCert && !p.copyKey && Match(s.cert, s.backupKey))
              || (!p.copyCert && p.copyKey && Match(s.backupCert, s.key))
  {
    assert AlwaysRecoverable(s, p, issue) ==> Recoverable(After(s, p, issue, 3));
    forall steps: nat ensures After(s, p, issue, steps) == After(s, p, issue, if steps < 4 then steps else 4) {
    }
  }

  /**
   When the live pair is already torn, so that only the backup matches, the next renewal's copies overwrite the
   backup: it is safe exactly when it changes nothing that the backup pair is made of.
   */
  lemma TornRenewalIff(s: Store, p: Plan, issue: nat)
    requires !LiveMatches(s) && BackupMatches(s) && s.cert.Some? && s.key.Some? && Fresh(s, issue)
    ensures AlwaysRecoverable(s, p, issue) <==>
              && (p.copyCert ==> s.cert == s.backupCert)
              && (p.copyKey ==> s.key == s.backupKey)
  {
    forall steps: nat ensures After(s, p, issue, steps) == After(s, p, issue, if steps < 4 then steps else 4) {
    }
    if AlwaysRecoverable(s, p, issue) {
      assert Recoverable(After(s, p, issue, 1)) && Recoverable(After(s, p, issue, 2));
    }
  }

  /** One renewal: the issue it obtained, its outcomes, and how many of its operations ran before a crash. */
  datatype Renewal = Renewal(issue: nat, plan: Plan, steps: nat)

  predicate Interrupted(r: Renewal) { r.plan.writeCert && (r.steps == 3 || (r.steps > 3 && !r.plan.writeKey)) }

  function RunAll(s: Store, renewals: seq<Renewal>): Store
    decreases renewals
  {
    if renewals == [] then s
    else RunAll(After(s, renewals[0].plan, renewals[0].issue, renewals[0].steps), renewals[1..])
  }

  predicate AllFresh(s: Store, renewals: seq<Renewal>)
    decreases renewals
  {
    renewals == [] ||
    (Fresh(s, renewals[0].issue) &&
     AllFresh(After(s, renewals[0].plan, renewals[0].issue, renewals[0].steps), renewals[1..]))
  }

  /**
   Over any number of renewals that take their backups, with crashes anywhere, the live pair matches unless the
   last renewal was cut between its two writes; and then the backup pair does.
   */
  lemma {:induction false} RenewalsRecoverable(s: Store, renewals: seq<Renewal>)
    requires LiveMatches(s) && AllFresh(s, renewals)
    requires forall i | 0 <= i < |renewals| :: renewals[i].plan.copyCert && renewals[i].plan.copyKey
    requires forall i | 0 <= i < |renewals| - 1 :: !Interrupted(renewals[i])
    ensures Recoverable(RunAll(s, renewals))
    ensures LiveMatches(RunAll(s, renewals)) <==> renewals == [] || !Interrupted(renewals[|renewals| - 1])
    decreases renewals
  {
    if renewals != [] {
      var s' := After(s, renewals[0].plan, renewals[0].issue, renewals[0].steps);
      if |renewals| == 1 {
        assert renewals[1..] == [];
      } else {
        assert !Interrupted(renewals[0]) && LiveMatches(s');
        assert forall i | 0 <= i < |renewals| - 1 :: renewals[1..][i] == renewals[i + 1];
        RenewalsRecoverable(s', renewals[1..]);
      }
    }
  }

  /** Two renewals cut between their writes, one after the other, leave no usable pair at all. */
  lemma TwoInterruptionsLoseBoth(s: Store, first: nat, second: nat)
    requires LiveMatches(s) && Fresh(s, first) && Fresh(s, second) && first != second
    ensures !Recoverable(RunAll(s, [Renewal(first, Plan(true, true, true, true), 3),
                                    Renewal(second, Plan(true, true, true, true), 3)]))
  {
    var all := [Renewal(first, Plan(true, true, true, true), 3), Renewal(second, Plan(true, true, true, true), 3)];
    var s1 := After(s, all[0].plan, first, 3);
    var s2 := After(s1, all[1].plan, second, 3);
    assert all[1..][1..] == [];
    assert RunAll(s, all) == RunAll(s1, all[1..]) == RunAll(s2, all[1..][1..]) == s2;
  }

  class CertStore {
    var files: Store

    constructor (files: Store)
      ensures this.files == files
    {
      this.files := files;
    }

    /** The file operations of a renewal in order, stopping after `steps` of them if the process dies there. */
    method ReplaceCertificate(issue: nat, p: Plan, steps: nat) returns (ok: bool)
      modifies this
      ensures files == After(old(files), p, issue, steps)
      ensures ok <==> steps >= 4 && p.writeCert && p.writeKey
      ensures ok ==> Match(files.cert, files.key) && files.cert == Some(Pem(issue))
    {
      ok := false;
      if steps < 1 {
        return;
      }
      if files.cert.Some? && p.copyCert {
        files := files.(backupCert := files.cert);
      }
      if steps < 2 {
        return;
      }
      if files.cert.Some? && files.key.Some? && p.copyKey {
        files := files.(backupKey := files.key);
      }
      if steps < 3 || !p.writeCert {
        return;
      }
      files := files.(cert := Some(Pem(issue)));
      if steps < 4 || !p.writeKey {
        return;
      }
      files := files.(key := Some(Pem(issue)));
      ok := true;
    }
  }
}
