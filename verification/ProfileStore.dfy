/** Whole runs of the profile handlers: load the file, edit a working copy, save it. */
module ProfileStore {
  import opened Seqs
  import opened Text
  import opened Transport
  import opened Profiles

  ghost predicate UniqueIds(ps: seq<Profile>)
  {
    && (forall i, j | 0 <= i < j < |ps| :: ps[i].id != ps[j].id)
    && (forall i | 0 <= i < |ps| :: ps[i].id != "")
  }

  ghost predicate WellFormed(f: File)
  {
    && UniqueIds(f.profiles)
    && (f.selectedId != "" ==> HasId(f.profiles, f.selectedId))
    && (forall i | 0 <= i < |f.profiles| :: f.profiles[i].selected <==> f.profiles[i].id == f.selectedId)
  }

  // ------------------------------------------------------------ fresh ids

  lemma {:induction false} FirstFreeIsFree(ps: seq<Profile>, base: string, n: nat)
    ensures FirstFree(ps, base, n).Some? <==> exists i | n <= i < SUFFIX_LIMIT :: !HasId(ps, Candidate(base, i))
    ensures FirstFree(ps, base, n).Some? ==>
              exists i | n <= i < SUFFIX_LIMIT :: FirstFree(ps, base, n).value == Candidate(base, i)
                  && !HasId(ps, Candidate(base, i))
    decreases SUFFIX_LIMIT - n
  {
    if n < SUFFIX_LIMIT && HasId(ps, Candidate(base, n)) {
      FirstFreeIsFree(ps, base, n + 1);
    }
  }

  ghost predicate HasRoom(ps: seq<Profile>, base: string, clock: nat)
  {
    || !HasId(ps, base)
    || (exists n | 2 <= n < SUFFIX_LIMIT :: !HasId(ps, Candidate(base, n)))
    || !HasId(ps, Candidate(base, clock))
  }

  /** uniqueProfileID is unique exactly when one of its 10000 answers is still free. */
  lemma FreshIffRoom(ps: seq<Profile>, name: string, clock: nat)
    ensures !HasId(ps, UniqueId(ps, name, clock)) <==> HasRoom(ps, Base(name), clock)
  {
    FirstFreeIsFree(ps, Base(name), 2);
  }

  /** The base and its candidates below n. */
  function Tried(base: string, n: nat): set<string>
    decreases n, base
  {
    if n <= 2 then {base} else Tried(base, n - 1) + {Candidate(base, n - 1)}
  }

  lemma CandidatesDiffer(base: string, i: nat, j: nat)
    requires Candidate(base, i) == Candidate(base, j)
    ensures i == j
  {
    assert Itoa(i) == Candidate(base, i)[|base| + 1..] == Candidate(base, j)[|base| + 1..] == Itoa(j);
    ItoaInjective(i, j);
  }

  lemma {:induction false} TriedMembers(base: string, n: nat)
    ensures forall x | x in Tried(base, n) :: x == base || exists i | 2 <= i < n :: x == Candidate(base, i)
    decreases n
  {
    if n > 2 {
      TriedMembers(base, n - 1);
    }
  }

  lemma {:induction false} TriedSize(base: string, n: nat)
    requires n >= 2
    ensures |Tried(base, n)| == n - 1
    decreases n
  {
    if n > 2 {
      TriedSize(base, n - 1);
      TriedMembers(base, n - 1);
      var c := Candidate(base, n - 1);
      if c in Tried(base, n - 1) {
        assert |c| > |base|;
        var i :| 2 <= i < n - 1 && c == Candidate(base, i);
        CandidatesDiffer(base, i, n - 1);
        assert false;
      }
    }
  }

  ghost function Ids(ps: seq<Profile>): set<string>
  {
    set i | 0 <= i < |ps| :: ps[i].id
  }

  lemma {:induction false} IdsSize(ps: seq<Profile>)
    ensures |Ids(ps)| <= |ps|
  {
    if ps != [] {
      var rest := ps[..|ps| - 1];
      IdsSize(rest);
      assert Ids(ps) == Ids(rest) + {ps[|ps| - 1].id};
    }
  }

  lemma SubsetSize<T>(a: set<T>, b: set<T>)
    requires a <= b
    ensures |a| <= |b|
  {
    if a != {} {
      var x :| x in a;
      SubsetSize(a - {x}, b - {x});
    }
  }

  /** The number of different answers for one name. */
  function Answers(clock: nat): nat { if 2 <= clock < SUFFIX_LIMIT then SUFFIX_LIMIT - 1 else SUFFIX_LIMIT }

  lemma AllAnswers(base: string, clock: nat)
    ensures |Tried(base, SUFFIX_LIMIT) + {Candidate(base, clock)}| == Answers(clock)
  {
    TriedSize(base, SUFFIX_LIMIT);
    TriedMembers(base, SUFFIX_LIMIT);
    var c := Candidate(base, clock);
    assert |c| > |base|;
    if c in Tried(base, SUFFIX_LIMIT) {
      var i :| 2 <= i < SUFFIX_LIMIT && c == Candidate(base, i);
      CandidatesDiffer(base, i, clock);
      assert Tried(base, SUFFIX_LIMIT) + {c} == Tried(base, SUFFIX_LIMIT);
    } else if 2 <= clock < SUFFIX_LIMIT {
      TriedHolds(base, SUFFIX_LIMIT, clock);
      assert false;
    }
  }

  lemma {:induction false} TriedHolds(base: string, n: nat, i: nat)
    requires 2 <= i < n
    ensures Candidate(base, i) in Tried(base, n)
    decreases n
  {
    if i < n - 1 {
      TriedHolds(base, n - 1, i);
    }
  }

  /** With fewer profiles than there are answers for a name there is always room. */
  lemma SmallStoreHasRoom(ps: seq<Profile>, name: string, clock: nat)
    requires |ps| < Answers(clock)
    ensures !HasId(ps, UniqueId(ps, name, clock))
  {
    var base := Base(name);
    if !HasRoom(ps, base, clock) {
      TriedMembers(base, SUFFIX_LIMIT);
      var all := Tried(base, SUFFIX_LIMIT) + {Candidate(base, clock)};
      assert all <= Ids(ps);
      AllAnswers(base, clock);
      IdsSize(ps);
      SubsetSize(all, Ids(ps));
      assert false;
    }
    FreshIffRoom(ps, name, clock);
  }

  /** The k-th answer for a name: the base, the suffixes 2 to 9999, then the clock. */
  function Nth(base: string, clock: nat, k: nat): string
  {
    if k == 0 then base else if k < SUFFIX_LIMIT - 1 then Candidate(base, k + 1) else Candidate(base, clock)
  }

  lemma NthDiffer(base: string, clock: nat, i: nat, j: nat)
    requires i < j < Answers(clock)
    ensures Nth(base, clock, i) != Nth(base, clock, j)
  {
    if i == 0 {
      assert |Nth(base, clock, j)| > |base|;
    } else if Nth(base, clock, i) == Nth(base, clock, j) {
      CandidatesDiffer(base, i + 1, if j < SUFFIX_LIMIT - 1 then j + 1 else clock);
      assert false;
    }
  }

  /** Unselected profiles with the first n answers as their ids. */
  function Filled(p: Profile, base: string, clock: nat, n: nat): (ps: seq<Profile>)
    ensures |ps| == n && forall k | 0 <= k < n :: ps[k] == p.(id := Nth(base, clock, k), selected := false)
  {
    seq(n, k requires 0 <= k < n => p.(id := Nth(base, clock, k), selected := false))
  }

  lemma FilledIsWellFormed(p: Profile, base: string, clock: nat)
    requires base != ""
    ensures WellFormed(File("", Filled(p, base, clock, Answers(clock))))
  {
    var ps := Filled(p, base, clock, Answers(clock));
    forall i, j | 0 <= i < j < |ps|
      ensures ps[i].id != ps[j].id
    {
      NthDiffer(base, clock, i, j);
    }
  }

  lemma FilledHasNoRoom(p: Profile, base: string, clock: nat)
    ensures !HasRoom(Filled(p, base, clock, Answers(clock)), base, clock)
  {
    var ps := Filled(p, base, clock, Answers(clock));
    assert ps[0].id == base;
    forall n | 2 <= n < SUFFIX_LIMIT
      ensures HasId(ps, Candidate(base, n))
    {
      assert ps[n - 1].id == Candidate(base, n);
    }
    if !(2 <= clock < SUFFIX_LIMIT) {
      assert ps[SUFFIX_LIMIT - 1].id == Candidate(base, clock);
    }
  }

  /** Whatever the clock says, some well-formed store with as many profiles as there are answers
      for a name makes the next create under that name repeat an id. */
  lemma FullStoreRepeatsAnId(p: Profile, clock: nat)
    ensures exists f: File ::
              WellFormed(f) && |f.profiles| == Answers(clock) && HasId(f.profiles, UniqueId(f.profiles, p.name, clock))
  {
    var base := Base(p.name);
    BaseIsPlain(p.name);
    var f := File("", Filled(p, base, clock, Answers(clock)));
    FilledIsWellFormed(p, base, clock);
    FilledHasNoRoom(p, base, clock);
    FreshIffRoom(f.profiles, p.name, clock);
  }

  lemma BaseIsPlain(name: string)
    ensures Base(name) != "" && Plain(Base(name)[0]) && Plain(Base(name)[|Base(name)| - 1])
  {
    SlugIsSlug(name);
    SlugOfSlug(Slug(name));
  }

  lemma CandidateIsPlain(base: string, n: nat)
    requires base != "" && Plain(base[0])
    ensures Plain(Candidate(base, n)[0]) && Plain(Candidate(base, n)[|Candidate(base, n)| - 1])
  {
    assert Candidate(base, n)[|Candidate(base, n)| - 1] == Itoa(n)[|Itoa(n)| - 1];
  }

  lemma PlainIsTrimmed(s: string)
    requires s != "" && Plain(s[0]) && Plain(s[|s| - 1])
    ensures TrimSpace(s) == s
  {
  }

  /** A chosen id survives trimming and is never empty. */
  lemma UniqueIdIsTrimmed(ps: seq<Profile>, name: string, clock: nat)
    ensures UniqueId(ps, name, clock) != "" && TrimSpace(UniqueId(ps, name, clock)) == UniqueId(ps, name, clock)
  {
    var base := Base(name);
    BaseIsPlain(name);
    FirstFreeIsFree(ps, base, 2);
    var id := UniqueId(ps, name, clock);
    if id != base {
      var n: nat :| id == Candidate(base, n);
      CandidateIsPlain(base, n);
    }
    PlainIsTrimmed(id);
  }

  // ------------------------------------------------------------ every edit keeps the file well-formed

  lemma SelectKeeps(f: File, id: string)
    requires UniqueIds(f.profiles) && Select(f, id).error.None?
    ensures WellFormed(Select(f, id).file) && Select(f, id).file.selectedId == TrimSpace(id)
  {
    var g := Select(f, id).file;
    var k :| 0 <= k < |f.profiles| && f.profiles[k].id == TrimSpace(id);
    assert g.profiles[k].id == g.selectedId;
  }

  lemma {:induction false} WithoutKeeps(ps: seq<Profile>, id: string)
    ensures forall i | 0 <= i < |Without(ps, id)| :: Without(ps, id)[i] in ps && Without(ps, id)[i].id != id
    ensures forall i | 0 <= i < |ps| && ps[i].id != id :: ps[i] in Without(ps, id)
    ensures UniqueIds(ps) ==> UniqueIds(Without(ps, id))
  {
    if ps != [] {
      var rest, last := ps[..|ps| - 1], ps[|ps| - 1];
      WithoutKeeps(rest, id);
      if UniqueIds(ps) {
        assert UniqueIds(rest);
        forall i | 0 <= i < |Without(rest, id)|
          ensures Without(rest, id)[i].id != last.id
        {
          assert Without(rest, id)[i] in rest;
        }
      }
      forall i | 0 <= i < |ps| && ps[i].id != id
        ensures ps[i] in Without(ps, id)
      {
        if i < |rest| {
          assert rest[i] == ps[i] && rest[i] in Without(rest, id);
        }
      }
    }
  }

  lemma DeleteKeeps(f: File, id: string)
    requires WellFormed(f) && Delete(f, id).error.None?
    ensures WellFormed(Delete(f, id).file) && !HasId(Delete(f, id).file.profiles, id)
  {
    var g := Delete(f, id).file;
    WithoutKeeps(f.profiles, id);
    if g.selectedId != "" {
      var k :| 0 <= k < |f.profiles| && f.profiles[k].id == f.selectedId;
      assert f.profiles[k] in g.profiles;
    }
    forall i | 0 <= i < |g.profiles|
      ensures g.profiles[i].selected <==> g.profiles[i].id == g.selectedId
    {
      assert g.profiles[i] in f.profiles;
    }
  }

  lemma IdIsTrimmed(ps: seq<Profile>, req: Request, clock: nat)
    ensures IdFor(ps, req, clock) != "" && TrimSpace(IdFor(ps, req, clock)) == IdFor(ps, req, clock)
    ensures Creating(req) ==> IdFor(ps, req, clock) == UniqueId(ps, Slug(NameOf(req)), clock)
  {
    UniqueIdIsTrimmed(ps, Slug(NameOf(req)), clock);
  }

  lemma PutKeeps(f: File, i: nat, p: Profile)
    requires WellFormed(f) && i <= |f.profiles| && p.id != "" && !p.selected
    requires if i < |f.profiles| then f.profiles[i].id == p.id else !HasId(f.profiles, p.id)
    ensures UniqueIds(Put(f.profiles, i, p)) && HasId(Put(f.profiles, i, p), p.id)
    ensures f.selectedId != "" && f.selectedId != p.id ==> WellFormed(f.(profiles := Put(f.profiles, i, p)))
  {
    var ps := Put(f.profiles, i, p);
    assert ps[i].id == p.id;
    if f.selectedId != "" {
      var k :| 0 <= k < |f.profiles| && f.profiles[k].id == f.selectedId;
      assert ps[k].id == f.selectedId;
    }
  }

  lemma InstallKeeps(f: File, req: Request, id: string)
    requires WellFormed(f) && id != "" && TrimSpace(id) == id
    requires Creating(req) ==> !HasId(f.profiles, id)
    ensures WellFormed(Install(f, req, id)) && Install(f, req, id).selectedId != ""
  {
    var i := Slot(f.profiles, req, id);
    var p := Stored(req, id, OldPassword(f.profiles, i));
    PutKeeps(f, i, p);
    if req.select || f.selectedId == "" || f.selectedId == id {
      SelectKeeps(f.(profiles := Put(f.profiles, i, p)), id);
    }
  }

  lemma InstallClashes(f: File, req: Request, id: string)
    requires Creating(req) && HasId(f.profiles, id)
    ensures !WellFormed(Install(f, req, id))
  {
    var out := Install(f, req, id).profiles;
    var k :| 0 <= k < |f.profiles| && f.profiles[k].id == id;
    assert out[k].id == id && out[|f.profiles|].id == id;
  }

  /** One of the ids that a create may take is still free. */
  ghost predicate RoomFor(ps: seq<Profile>, req: Request, clock: nat)
  {
    Creating(req) ==> HasRoom(ps, Base(Slug(NameOf(req))), clock)
  }

  lemma RoomMeansFresh(ps: seq<Profile>, req: Request, clock: nat)
    ensures RoomFor(ps, req, clock) <==> (Creating(req) ==> !HasId(ps, IdFor(ps, req, clock)))
  {
    IdIsTrimmed(ps, req, clock);
    FreshIffRoom(ps, Slug(NameOf(req)), clock);
  }

  /** A save keeps the file well-formed exactly when there is room for the id it needs. */
  lemma UpsertKeeps(f: File, req: Request, clock: nat)
    requires WellFormed(f) && Upsert(f, req, clock).error.None?
    ensures WellFormed(Upsert(f, req, clock).file) <==> RoomFor(f.profiles, req, clock)
    ensures RoomFor(f.profiles, req, clock) ==> Upsert(f, req, clock).file.selectedId != ""
  {
    var id := IdFor(f.profiles, req, clock);
    IdIsTrimmed(f.profiles, req, clock);
    RoomMeansFresh(f.profiles, req, clock);
    if RoomFor(f.profiles, req, clock) {
      InstallKeeps(f, req, id);
    } else {
      InstallClashes(f, req, id);
    }
  }

  /** A select that finds nothing has already cleared every flag of the working copy: unless nothing
      was selected, that copy must not be saved. */
  lemma MissedSelectSpoilsTheCopy(f: File, id: string)
    requires WellFormed(f) && Select(f, id).error == Some(NotFound)
    ensures WellFormed(Select(f, id).file) <==> f.selectedId == ""
  {
    var g := Select(f, id).file;
    if f.selectedId != "" {
      var k :| 0 <= k < |f.profiles| && f.profiles[k].id == f.selectedId;
      assert !g.profiles[k].selected && g.profiles[k].id == g.selectedId;
    }
  }

  // ------------------------------------------------------------ the handlers

  datatype Fault = NoFault | LoadFails | WriteFails | RenameFails

  datatype Op =
    | Save(req: Request, clock: nat, fault: Fault)
    | Choose(id: string, fault: Fault)
    | Remove(id: string, fault: Fault)
    | Reload(fault: Fault)

  /** `disk` is the file, `memory` the daemon's copy of the last file it loaded or saved. */
  datatype Stores = Stores(disk: File, memory: File)

  function Edit(f: File, op: Op): Outcome
  {
    match op
    case Save(req, clock, _) => Upsert(f, req, clock)
    case Choose(id, _) => Select(f, id)
    case Remove(id, _) => Delete(f, id)
    case Reload(_) => Outcome(f, None)
  }

  /** What a handler answers and stores, given the outcome of its edit. */
  function Verdict(op: Op, out: Outcome): Option<Error>
  {
    if op.Remove? && op.id == "" then Some(IdRequired)
    else if op.fault == LoadFails then Some(CannotLoad)
    else if out.error.Some? then out.error
    else if !op.Reload? && op.fault != NoFault then Some(CannotSave)
    else None
  }

  function Commit(s: Stores, op: Op, out: Outcome): Stores
  {
    if Verdict(op, out).Some? then s
    else if op.Reload? then s.(memory := out.file)
    else Stores(out.file, out.file)
  }

  function Answer(s: Stores, op: Op): Option<Error> { Verdict(op, Edit(s.disk, op)) }

  function Step(s: Stores, op: Op): Stores { Commit(s, op, Edit(s.disk, op)) }

  class Daemon {
    var disk: File
    var temp: Option<File>
    var memory: File

    constructor (f: File)
      ensures View() == Stores(f, f)
    {
      disk, temp, memory := f, None, f;
    }

    function View(): Stores
      reads this
    {
      Stores(disk, memory)
    }

    /** Write beside the file, then rename over it. */
    method SaveProfiles(f: File, fault: Fault) returns (error: Option<Error>)
      modifies `disk, `temp
      ensures error == if fault == WriteFails || fault == RenameFails then Some(CannotSave) else None
      ensures disk == if error.None? then f else old(disk)
    {
      if fault == WriteFails {
        return Some(CannotSave);
      }
      temp := Some(f);
      if fault == RenameFails {
        return Some(CannotSave);
      }
      disk, temp := temp.value, None;
      return None;
    }

    static method EditCopy(latest: ProfilesFile, op: Op) returns (error: Option<Error>)
      modifies latest
      ensures Outcome(latest.View(), error) == Edit(old(latest.View()), op)
    {
      error := None;
      match op
      case Save(req, clock, _) => error := latest.UpsertProfile(req, clock);
      case Choose(id, _) => error := latest.SelectProfileById(id);
      case Remove(id, _) => error := latest.DeleteProfile(id);
      case Reload(_) =>
    }

    method Finish(op: Op, latest: File, edited: Option<Error>) returns (error: Option<Error>)
      requires !(op.Remove? && op.id == "") && op.fault != LoadFails
      modifies this
      ensures error == Verdict(op, Outcome(latest, edited))
      ensures View() == Commit(old(View()), op, Outcome(latest, edited))
    {
      error := edited;
      if error.None? && !op.Reload? {
        error := SaveProfiles(latest, op.fault);
      }
      if error.None? {
        memory := latest;
      }
    }

    method Handle(op: Op) returns (error: Option<Error>)
      modifies this
      ensures error == Answer(old(View()), op)
      ensures View() == Step(old(View()), op)
      ensures error.Some? ==> disk == old(disk) && memory == old(memory)
    {
      if op.Remove? && op.id == "" {
        return Some(IdRequired);
      }
      if op.fault == LoadFails {
        return Some(CannotLoad);
      }
      var latest := new ProfilesFile(disk);
      var edited := EditCopy(latest, op);
      error := Finish(op, latest.View(), edited);
    }
  }

  // ------------------------------------------------------------ whole runs

  function After(s: Stores, ops: seq<Op>): Stores
  {
    if ops == [] then s else Step(After(s, ops[..|ops| - 1]), ops[|ops| - 1])
  }

  /** A save that succeeds has room for the id it needs. */
  ghost predicate FindsRoom(s: Stores, op: Op)
  {
    op.Save? && Answer(s, op).None? ==> RoomFor(s.disk.profiles, op.req, op.clock)
  }

  /** Every handler of the run meets a store that suits it. */
  ghost predicate Throughout(suits: (Stores, Op) -> bool, s: Stores, ops: seq<Op>)
  {
    ops == [] || (Throughout(suits, s, ops[..|ops| - 1]) && suits(After(s, ops[..|ops| - 1]), ops[|ops| - 1]))
  }

  ghost predicate Roomy(s: Stores, ops: seq<Op>)
  {
    Throughout(FindsRoom, s, ops)
  }

  /** A create meets fewer profiles than there are answers for its name: always room enough. */
  ghost predicate StaysSmall(s: Stores, op: Op)
  {
    op.Save? && Creating(op.req) ==> |s.disk.profiles| < Answers(op.clock)
  }

  lemma SmallStoreFindsRoom(s: Stores, op: Op)
    requires StaysSmall(s, op)
    ensures FindsRoom(s, op)
  {
    if op.Save? && Creating(op.req) {
      IdIsTrimmed(s.disk.profiles, op.req, op.clock);
      SmallStoreHasRoom(s.disk.profiles, Slug(NameOf(op.req)), op.clock);
      RoomMeansFresh(s.disk.profiles, op.req, op.clock);
    }
  }

  lemma StepKeeps(s: Stores, op: Op)
    requires WellFormed(s.disk) && s.memory == s.disk
    ensures Step(s, op).memory == Step(s, op).disk
    ensures WellFormed(Step(s, op).disk) <==> FindsRoom(s, op)
  {
    if Answer(s, op).None? {
      match op
      case Save(req, clock, _) => UpsertKeeps(s.disk, req, clock);
      case Choose(id, _) => SelectKeeps(s.disk, id);
      case Remove(id, _) => DeleteKeeps(s.disk, id);
      case Reload(_) =>
    }
  }

  lemma {:induction false} RoomyKeeps(s: Stores, ops: seq<Op>)
    requires WellFormed(s.disk) && s.memory == s.disk && Roomy(s, ops)
    ensures WellFormed(After(s, ops).disk) && After(s, ops).memory == After(s, ops).disk
  {
    if ops != [] {
      RoomyKeeps(s, ops[..|ops| - 1]);
      StepKeeps(After(s, ops[..|ops| - 1]), ops[|ops| - 1]);
    }
  }

  lemma BreaksAtOnce(s: Stores, front: seq<Op>, op: Op)
    requires WellFormed(s.disk) && s.memory == s.disk
    requires Roomy(s, front) && !FindsRoom(After(s, front), op)
    ensures !WellFormed(Step(After(s, front), op).disk)
  {
    RoomyKeeps(s, front);
    StepKeeps(After(s, front), op);
  }

  /** The first handler that meets another store. */
  lemma {:induction false} FirstUnsuited(suits: (Stores, Op) -> bool, s: Stores, ops: seq<Op>) returns (i: nat)
    requires !Throughout(suits, s, ops)
    ensures i < |ops| && Throughout(suits, s, ops[..i]) && !suits(After(s, ops[..i]), ops[i])
  {
    var front := ops[..|ops| - 1];
    if Throughout(suits, s, front) {
      i := |front|;
    } else {
      i := FirstUnsuited(suits, s, front);
      assert front[..i] == ops[..i];
    }
  }

  lemma AfterNext(s: Stores, ops: seq<Op>, i: nat)
    requires i < |ops|
    ensures After(s, ops[..i + 1]) == Step(After(s, ops[..i]), ops[i])
  {
    assert ops[..i + 1][..i] == ops[..i];
  }

  lemma {:induction false} ThroughoutPrefix(suits: (Stores, Op) -> bool, s: Stores, ops: seq<Op>, k: nat)
    requires k <= |ops| && Throughout(suits, s, ops)
    ensures Throughout(suits, s, ops[..k])
  {
    if k == |ops| {
      assert ops[..k] == ops;
    } else {
      ThroughoutPrefix(suits, s, ops[..|ops| - 1], k);
      assert ops[..|ops| - 1][..k] == ops[..k];
    }
  }

  /** The file is well-formed at every point of a run exactly when every create finds room. */
  lemma WellFormedIffRoomy(s: Stores, ops: seq<Op>)
    requires WellFormed(s.disk) && s.memory == s.disk
    ensures (forall k | 0 <= k <= |ops| :: WellFormed(After(s, ops[..k]).disk)) <==> Roomy(s, ops)
  {
    if Roomy(s, ops) {
      forall k | 0 <= k <= |ops|
        ensures WellFormed(After(s, ops[..k]).disk)
      {
        ThroughoutPrefix(FindsRoom, s, ops, k);
        RoomyKeeps(s, ops[..k]);
      }
    } else {
      var i := FirstUnsuited(FindsRoom, s, ops);
      BreaksAtOnce(s, ops[..i], ops[i]);
      AfterNext(s, ops, i);
    }
  }

  /** Over every run of the handlers, whatever fails: the stored file stays well-formed, the
      daemon's copy is the file, and the profile the tunnel will use is the selected one, or the
      first when none is. */
  lemma AlwaysWellFormed(s: Stores, ops: seq<Op>)
    requires WellFormed(s.disk) && s.memory == s.disk && Roomy(s, ops)
    ensures WellFormed(After(s, ops).disk) && After(s, ops).memory == After(s, ops).disk
    ensures var f := After(s, ops).disk;
            var p := SelectedProfile(f);
            && (p.None? <==> f.profiles == [])
            && (f.selectedId != "" ==> p.Some? && p.value.id == f.selectedId && p.value.selected)
            && (f.selectedId == "" && f.profiles != [] ==> p == Some(f.profiles[0]))
  {
    RoomyKeeps(s, ops);
    var f := After(s, ops).disk;
    FirstFlaggedIsFlagged(f.profiles, 0);
  }

  lemma {:induction false} ThroughoutWeakens(p: (Stores, Op) -> bool, q: (Stores, Op) -> bool, s: Stores, ops: seq<Op>)
    requires Throughout(p, s, ops) && forall t, op :: p(t, op) ==> q(t, op)
    ensures Throughout(q, s, ops)
  {
    if ops != [] {
      ThroughoutWeakens(p, q, s, ops[..|ops| - 1]);
    }
  }

  /** While every create meets fewer profiles than there are answers, the file is well-formed at every
      point of the run, and the daemon's copy is the file at its end. */
  lemma SmallRunsStayWellFormed(s: Stores, ops: seq<Op>)
    requires WellFormed(s.disk) && s.memory == s.disk && Throughout(StaysSmall, s, ops)
    ensures Roomy(s, ops) && After(s, ops).memory == After(s, ops).disk
    ensures forall k | 0 <= k <= |ops| :: WellFormed(After(s, ops[..k]).disk)
  {
    forall t, op | StaysSmall(t, op)
      ensures FindsRoom(t, op)
    {
      SmallStoreFindsRoom(t, op);
    }
    ThroughoutWeakens(StaysSmall, FindsRoom, s, ops);
    RoomyKeeps(s, ops);
    WellFormedIffRoomy(s, ops);
  }

  lemma {:induction false} FirstFlaggedIsFlagged(ps: seq<Profile>, from: nat)
    requires from <= |ps|
    ensures FirstFlagged(ps, from).Some? ==>
              FirstFlagged(ps, from).value < |ps| && ps[FirstFlagged(ps, from).value].selected
    decreases |ps| - from
  {
    if from < |ps| && !ps[from].selected {
      FirstFlaggedIsFlagged(ps, from + 1);
    }
  }

  // ------------------------------------------------------------ editing a stored profile

  /** The request that an editor sends to save a stored profile as it is. */
  function AsRequest(p: Profile): Request
  {
    var t := p.transport;
    Request(p.id, p.name, p.selected, p.ssh, t.mode, t.httpProxy, t.tls, t.payload)
  }

  lemma LowerCaseIsFixed(m: string)
    requires forall i | 0 <= i < |m| :: 'a' <= m[i] <= 'z' || m[i] == '_'
    ensures TrimSpace(ToLower(m)) == m
  {
    assert ToLower(m) == m;
  }

  lemma CanonicalTwice(m: string)
    ensures Canonical(Canonical(m)) == Canonical(m)
  {
  }

  lemma CanonicalLetters(m: string)
    ensures forall i | 0 <= i < |Canonical(m)| :: 'a' <= Canonical(m)[i] <= 'z' || Canonical(m)[i] == '_'
  {
  }

  lemma NormalizeTwice(mode: string)
    ensures NormalizeMode(NormalizeMode(mode)) == NormalizeMode(mode)
  {
    var m := TrimSpace(ToLower(mode));
    CanonicalTwice(m);
    CanonicalLetters(m);
    LowerCaseIsFixed(Canonical(m));
  }

  /** Saving a profile and then saving what was stored, unedited, changes nothing. */
  lemma SaveThenResave(f: File, req: Request, clock: nat, later: nat)
    requires WellFormed(f) && Upsert(f, req, clock).error.None? && RoomFor(f.profiles, req, clock)
    ensures var g := Upsert(f, req, clock).file;
            var at := Find(g.profiles, IdFor(f.profiles, req, clock), 0);
            at.Some? && Upsert(g, AsRequest(g.profiles[at.value]), later) == Outcome(g, None)
  {
    var g := Upsert(f, req, clock).file;
    var id := IdFor(f.profiles, req, clock);
    UpsertKeeps(f, req, clock);
    IdIsTrimmed(f.profiles, req, clock);
    InstalledIsStorable(f, req, id);
    Resave(g, Find(g.profiles, id, 0).value, later);
  }

  lemma HostIsNotEmpty(host: string)
    requires TrimSpace(host) != ""
    ensures host != ""
  {
  }

  /** What a save stores passes the checks of a later save as it stands. */
  ghost predicate Storable(p: Profile)
  {
    && TrimSpace(p.id) == p.id != "" && TrimSpace(p.name) == p.name != ""
    && Invalid(p.ssh, p.transport.mode).None? && p.ssh.authType != ""
    && Rebuilds(p.transport, p.ssh)
  }

  ghost predicate Rebuilds(t: TConf, ssh: Ssh)
  {
    Build(NormalizeMode(t.mode), t.payload, t.httpProxy, t.tls, ssh) == t
  }

  lemma NameIsTrimmed(req: Request)
    ensures TrimSpace(NameOf(req)) == NameOf(req) != ""
  {
  }

  lemma BuiltRebuilds(mode: string, req: Request, ssh: Ssh)
    requires NormalizeMode(mode) == mode && ssh.host != "" && ssh.port > 0
    ensures Rebuilds(Build(mode, req.payload, req.httpProxy, req.tls, ssh), ssh)
  {
    BuildTwice(mode, req.payload, req.httpProxy, req.tls, ssh);
  }

  lemma StoredIsStorable(req: Request, id: string, oldPassword: string)
    requires id != "" && TrimSpace(id) == id && Invalid(req.ssh, req.mode).None?
    ensures Storable(Stored(req, id, oldPassword))
  {
    NameIsTrimmed(req);
    NormalizeTwice(req.mode);
    HostIsNotEmpty(req.ssh.host);
    BuiltRebuilds(NormalizeMode(req.mode), req, Credentials(req.ssh, oldPassword));
  }

  /** Equal but for the flag. */
  predicate SameButFlag(p: Profile, q: Profile) { p.(selected := q.selected) == q }

  lemma SelectTouchesFlags(f: File, id: string, i: nat)
    requires i < |f.profiles|
    ensures |Select(f, id).file.profiles| == |f.profiles| && SameButFlag(f.profiles[i], Select(f, id).file.profiles[i])
  {
  }

  lemma InstalledAtSlot(f: File, req: Request, id: string)
    ensures var g := Install(f, req, id).profiles;
            var i := Slot(f.profiles, req, id);
            i < |g| && SameButFlag(Stored(req, id, OldPassword(f.profiles, i)), g[i])
  {
    var i := Slot(f.profiles, req, id);
    var p := Stored(req, id, OldPassword(f.profiles, i));
    SelectTouchesFlags(f.(profiles := Put(f.profiles, i, p)), id, i);
  }

  lemma InstalledIsStorable(f: File, req: Request, id: string)
    requires WellFormed(Install(f, req, id))
    requires id != "" && TrimSpace(id) == id && Invalid(req.ssh, req.mode).None?
    ensures var at := Find(Install(f, req, id).profiles, id, 0);
            at.Some? && Storable(Install(f, req, id).profiles[at.value])
  {
    var g := Install(f, req, id).profiles;
    InstalledAtSlot(f, req, id);
    StoredIsStorable(req, id, OldPassword(f.profiles, Slot(f.profiles, req, id)));
    assert g[Slot(f.profiles, req, id)].id == id;
  }

  lemma Resave(g: File, i: nat, later: nat)
    requires WellFormed(g) && i < |g.profiles| && g.selectedId != "" && Storable(g.profiles[i])
    ensures Upsert(g, AsRequest(g.profiles[i]), later) == Outcome(g, None)
  {
    var p := g.profiles[i];
    var req := AsRequest(p);
    assert Find(g.profiles, p.id, 0) == Some(i);
    assert Stored(req, p.id, p.ssh.password) == p.(selected := false);
    var ps := g.profiles[i := p.(selected := false)];
    if p.selected {
      assert Marked(ps, p.id) == g.profiles;
      assert HasId(ps, p.id) by { assert ps[i].id == p.id; }
    } else {
      assert ps == g.profiles;
    }
  }

  lemma InstallTouchesOneProfile(f: File, req: Request, id: string, k: nat)
    requires WellFormed(f) && k < |f.profiles| && (Creating(req) ==> !HasId(f.profiles, id))
    ensures var g := Install(f, req, id).profiles;
            && k < |g| && g[k].id == f.profiles[k].id
            && (f.profiles[k].id != id ==> SameButFlag(f.profiles[k], g[k]))
            && (f.profiles[k].id == id && req.ssh.password == "" ==> g[k].ssh.password == f.profiles[k].ssh.password)
  {
    var i := Slot(f.profiles, req, id);
    assert f.profiles[k].id == id ==> i == k;
    var g := f.(profiles := Put(f.profiles, i, Stored(req, id, OldPassword(f.profiles, i))));
    SelectTouchesFlags(g, id, k);
    assert k != i ==> g.profiles[k] == f.profiles[k] && SameButFlag(g.profiles[k], f.profiles[k]);
  }

  /** A save touches only the profile it is for, apart from the flags, and an empty password in the
      request keeps the stored one. */
  lemma SaveTouchesOneProfile(f: File, req: Request, clock: nat, k: nat)
    requires WellFormed(f) && k < |f.profiles| && RoomFor(f.profiles, req, clock)
    ensures var g := Upsert(f, req, clock).file.profiles;
            var id := IdFor(f.profiles, req, clock);
            && k < |g| && g[k].id == f.profiles[k].id
            && (f.profiles[k].id != id ==> SameButFlag(f.profiles[k], g[k]))
            && (f.profiles[k].id == id && req.ssh.password == "" ==> g[k].ssh.password == f.profiles[k].ssh.password)
  {
    RoomMeansFresh(f.profiles, req, clock);
    InstallTouchesOneProfile(f, req, IdFor(f.profiles, req, clock), k);
  }

  // ------------------------------------------------------------ every saved profile can be dialled

  ghost predicate AllDialable(ps: seq<Profile>)
  {
    forall i | 0 <= i < |ps| :: Dialable(ps[i].ssh, ps[i].transport)
  }

  lemma StoredDials(req: Request, id: string, oldPassword: string)
    requires Invalid(req.ssh, req.mode).None?
    ensures var p := Stored(req, id, oldPassword); Dialable(p.ssh, p.transport)
  {
    HostIsNotEmpty(req.ssh.host);
    BuiltDials(NormalizeMode(req.mode), req.payload, req.httpProxy, req.tls, Credentials(req.ssh, oldPassword));
  }

  lemma SelectKeepsDialable(f: File, id: string)
    requires AllDialable(f.profiles)
    ensures AllDialable(Select(f, id).file.profiles)
  {
    forall i | 0 <= i < |f.profiles|
      ensures SameButFlag(f.profiles[i], Select(f, id).file.profiles[i])
    {
      SelectTouchesFlags(f, id, i);
    }
  }

  lemma InstallKeepsDialable(f: File, req: Request, id: string)
    requires AllDialable(f.profiles) && Invalid(req.ssh, req.mode).None?
    ensures AllDialable(Install(f, req, id).profiles)
  {
    var i := Slot(f.profiles, req, id);
    var p := Stored(req, id, OldPassword(f.profiles, i));
    StoredDials(req, id, OldPassword(f.profiles, i));
    SelectKeepsDialable(f.(profiles := Put(f.profiles, i, p)), id);
  }

  lemma EditKeepsDialable(f: File, op: Op)
    requires AllDialable(f.profiles)
    ensures AllDialable(Edit(f, op).file.profiles)
  {
    match op
    case Save(req, clock, _) =>
      if Invalid(req.ssh, req.mode).None? {
        InstallKeepsDialable(f, req, IdFor(f.profiles, req, clock));
      }
    case Choose(id, _) => SelectKeepsDialable(f, id);
    case Remove(id, _) => WithoutKeepsDialable(f.profiles, id);
    case Reload(_) =>
  }

  lemma WithoutKeepsDialable(ps: seq<Profile>, id: string)
    requires AllDialable(ps)
    ensures AllDialable(Without(ps, id))
  {
    WithoutKeeps(ps, id);
    forall i | 0 <= i < |Without(ps, id)|
      ensures Dialable(Without(ps, id)[i].ssh, Without(ps, id)[i].transport)
    {
      assert Without(ps, id)[i] in ps;
    }
  }

  /** Over every run, whatever is saved: the connect path never meets a missing endpoint, proxy or
      TLS setting in a stored profile. */
  lemma {:induction false} AlwaysDialable(s: Stores, ops: seq<Op>)
    requires AllDialable(s.disk.profiles) && s.memory == s.disk
    ensures AllDialable(After(s, ops).disk.profiles) && After(s, ops).memory == After(s, ops).disk
  {
    if ops != [] {
      var before := After(s, ops[..|ops| - 1]);
      AlwaysDialable(s, ops[..|ops| - 1]);
      EditKeepsDialable(before.disk, ops[|ops| - 1]);
    }
  }
}
