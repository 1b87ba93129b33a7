/** The local certificate authority: a certificate and its private key in two files, which a start
    loads, or generates and writes one file after the other.  Any start may be cut short. */
module LocalCa {
  import opened Common

  /** A key stands for itself; a certificate names the key it was made for, or is the old shared one. */
  datatype Certificate = Legacy | For(key: nat)

  datatype Disk = Disk(cert: Option<Certificate>, key: Option<nat>)

  /** How far the replacing of one file gets before a crash or an error: not to the removal of the old
      file, to the removal, to the renaming of the new one, or to the end. */
  datatype Reach = Nothing | Removed | Renamed | Complete

  /** What the surroundings do during one start. */
  datatype Start = Start(certReadFails: bool, keyReadFails: bool, chmodFails: bool, generated: Option<nat>,
                         keyReach: Reach, certReach: Reach)

  datatype Outcome =
    | Running(key: nat)
    | NotMatching
    | NoPermission
    | Unreadable
    | Unfinished
    | SplitDirectories
    | InstallationIncomplete

  // ---------------------------------------------------------------- one start

  function Replaced<T>(was: Option<T>, value: T, reach: Reach): Option<T> {
    match reach
    case Nothing => was
    case Removed => None
    case _ => Some(value)
  }

  function Generated(d: Disk, s: Start, sameDirectory: bool): (Disk, Outcome) {
    if !sameDirectory then (d, SplitDirectories)
    else if s.generated.None? then (d, Unfinished)
    else
      var k := s.generated.value;
      var withKey := d.(key := Replaced(d.key, k, s.keyReach));
      if s.keyReach != Complete then (withKey, Unfinished)
      else
        var withCert := withKey.(cert := Replaced(d.cert, For(k), s.certReach));
        if s.certReach != Complete then (withCert, Unfinished) else (withCert, Running(k))
  }

  class Installation {
    const sameDirectory: bool
    var cert: Option<Certificate>
    var key: Option<nat>

    ghost function Files(): Disk
      reads this
    {
      Disk(cert, key)
    }

    constructor (cert: Option<Certificate>, key: Option<nat>, sameDirectory: bool)
      ensures Files() == Disk(cert, key) && this.sameDirectory == sameDirectory
    {
      this.cert, this.key, this.sameDirectory := cert, key, sameDirectory;
    }

    /** writeLocalCAFile for the key. */
    method WriteKey(k: nat, reach: Reach) returns (ok: bool)
      modifies this`key
      ensures key == Replaced(old(key), k, reach) && ok == reach.Complete?
    {
      if reach == Nothing { return false; }
      key := None;
      if reach == Removed { return false; }
      key := Some(k);
      ok := reach.Complete?;
    }

    /** writeLocalCAFile for the certificate. */
    method WriteCertificate(k: nat, reach: Reach) returns (ok: bool)
      modifies this`cert
      ensures cert == Replaced(old(cert), For(k), reach) && ok == reach.Complete?
    {
      if reach == Nothing { return false; }
      cert := None;
      if reach == Removed { return false; }
      cert := Some(For(k));
      ok := reach.Complete?;
    }

    /** generateAndPersistManager: the key first. */
    method GenerateAndPersist(s: Start) returns (r: Outcome)
      modifies this`cert, this`key
      ensures (Files(), r) == Generated(old(Files()), s, sameDirectory)
    {
      if !sameDirectory { return SplitDirectories; }
      if s.generated.None? { return Unfinished; }
      var ok := WriteKey(s.generated.value, s.keyReach);
      if !ok { return Unfinished; }
      ok := WriteCertificate(s.generated.value, s.certReach);
      if !ok { return Unfinished; }
      r := Running(s.generated.value);
    }

    /** LoadOrCreateManager. */
    method LoadOrCreate(s: Start) returns (r: Outcome)
      modifies this`cert, this`key
      ensures Started(old(Files()), s, sameDirectory, Files(), r)
    {
      var certFound, keyFound := cert.Some? && !s.certReadFails, key.Some? && !s.keyReadFails;
      if certFound && cert.value.Legacy? {
        r := GenerateAndPersist(s);
        return;
      }
      if certFound && keyFound {
        if cert.value.key != key.value { return NotMatching; }
        if s.chmodFails { return NoPermission; }
        return Running(key.value);
      }
      if cert.None? && key.None? {
        r := GenerateAndPersist(s);
        return;
      }
      if cert.None? && keyFound {
        r := GenerateAndPersist(s);
        return;
      }
      if !certFound && cert.Some? { return Unreadable; }
      if !keyFound && key.Some? { return Unreadable; }
      r := InstallationIncomplete;
    }
  }

  /** What one start does, by what is on disk. */
  ghost predicate Started(d: Disk, s: Start, sameDirectory: bool, after: Disk, r: Outcome) {
    if d.cert.Some? && s.certReadFails then after == d && r == Unreadable
    else if d.cert.Some? && d.cert.value.For? then
      && after == d
      && (if d.key.None? then r == InstallationIncomplete
          else if s.keyReadFails then r == Unreadable
          else if d.key.value != d.cert.value.key then r == NotMatching
          else if s.chmodFails then r == NoPermission
          else r == Running(d.key.value))
    else if d.cert.None? && d.key.Some? && s.keyReadFails then after == d && r == Unreadable
    else (after, r) == Generated(d, s, sameDirectory)
  }

  // ---------------------------------------------------------------- every run

  /** A certificate of our own has its key beside it. */
  predicate Sound(d: Disk) { d.cert.Some? && d.cert.value.For? ==> d.key == Some(d.cert.value.key) }

  /** An outcome no restart gets out of. */
  predicate Stuck(r: Outcome) { r.InstallationIncomplete? || r.NotMatching? }

  ghost predicate Run(sameDirectory: bool, disks: seq<Disk>, starts: seq<Start>, outcomes: seq<Outcome>) {
    && |disks| == |starts| + 1 && |outcomes| == |starts|
    && forall i :: 0 <= i < |starts| ==> Started(disks[i], starts[i], sameDirectory, disks[i + 1], outcomes[i])
  }

  lemma StartKeepsSound(d: Disk, s: Start, sameDirectory: bool, after: Disk, r: Outcome)
    requires Started(d, s, sameDirectory, after, r)
    ensures Sound(d) ==> Sound(after) && !Stuck(r)
    ensures !Sound(d) ==> after == d && (Stuck(r) || r.Unreadable?)
  {
  }

  /** Whatever is cut short however often, a sound disk stays sound, and a start that runs has a
      matching pair on disk. */
  lemma {:induction false} EveryRunIsSound(sameDirectory: bool, disks: seq<Disk>, starts: seq<Start>,
                                           outcomes: seq<Outcome>, k: nat)
    requires Run(sameDirectory, disks, starts, outcomes) && Sound(disks[0]) && k <= |starts|
    ensures Sound(disks[k])
    ensures forall i :: 0 <= i < k ==> !Stuck(outcomes[i])
    ensures forall i :: 0 <= i < k && outcomes[i].Running?
                        ==> disks[i + 1] == Disk(Some(For(outcomes[i].key)), Some(outcomes[i].key))
  {
    if k > 0 {
      EveryRunIsSound(sameDirectory, disks, starts, outcomes, k - 1);
      StartKeepsSound(disks[k - 1], starts[k - 1], sameDirectory, disks[k], outcomes[k - 1]);
    }
  }

  /** An uneventful start: files can be read and written. */
  predicate Undisturbed(s: Start) {
    && !s.certReadFails && !s.keyReadFails && !s.chmodFails && s.generated.Some?
    && s.keyReach.Complete? && s.certReach.Complete?
  }

  /** After any run from a disk, an undisturbed start runs exactly if that disk was sound; no run of starts
      repairs an unsound one. */
  lemma {:induction false} RecoversIff(disks: seq<Disk>, starts: seq<Start>, outcomes: seq<Outcome>, last: Start)
    requires Run(true, disks, starts, outcomes) && Undisturbed(last)
    ensures forall after, r :: Started(disks[|starts|], last, true, after, r) ==> (r.Running? <==> Sound(disks[0]))
    decreases |starts|
  {
    if starts != [] {
      StartKeepsSound(disks[0], starts[0], true, disks[1], outcomes[0]);
      assert Run(true, disks[1..], starts[1..], outcomes[1..]) by {
        forall i | 0 <= i < |starts[1..]|
          ensures Started(disks[1..][i], starts[1..][i], true, disks[1..][i + 1], outcomes[1..][i])
        {
          assert Started(disks[i + 1], starts[i + 1], true, disks[i + 2], outcomes[i + 1]);
        }
      }
      RecoversIff(disks[1..], starts[1..], outcomes[1..], last);
    }
  }

  /** A key once used is kept by every later start: the authority changes only by replacing the old shared
      certificate or when no certificate was there. */
  lemma {:induction false} RunningKeyIsKept(sameDirectory: bool, disks: seq<Disk>, starts: seq<Start>,
                                            outcomes: seq<Outcome>, j: nat, k: nat)
    requires Run(sameDirectory, disks, starts, outcomes) && Sound(disks[0]) && j < k <= |starts| && outcomes[j].Running?
    ensures disks[k] == disks[j + 1]
    ensures k < |starts| && outcomes[k].Running? ==> outcomes[k].key == outcomes[j].key
    decreases k
  {
    EveryRunIsSound(sameDirectory, disks, starts, outcomes, k);
    if k < |starts| { assert Started(disks[k], starts[k], sameDirectory, disks[k + 1], outcomes[k]); }
    if k > j + 1 {
      RunningKeyIsKept(sameDirectory, disks, starts, outcomes, j, k - 1);
    }
  }
}
