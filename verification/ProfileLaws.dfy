/** What the profile operations do to the profiles that a user sees. */
module ProfileLaws {
  import opened Seqs
  import opened Text
  import opened TextLaws
  import opened Transport
  import opened Profiles
  import ProfileStore

  // ------------------------------------------------------------ modes

  predicate HttpAt(m: string, i: nat)
  {
    i + 4 <= |m| && m[i] == 'h' && m[i + 1] == 't' && m[i + 2] == 't' && m[i + 3] == 'p'
  }

  predicate SniAt(m: string, i: nat) { i + 3 <= |m| && m[i] == 's' && m[i + 1] == 'n' && m[i + 2] == 'i' }

  predicate TlsAt(m: string, i: nat) { i + 3 <= |m| && m[i] == 't' && m[i + 1] == 'l' && m[i + 2] == 's' }

  /** "http" occurs in m. */
  ghost predicate NamesHttp(m: string) { exists i :: HttpAt(m, i) }

  /** "sni" or "tls" occurs in m. */
  ghost predicate NamesTls(m: string) { exists i :: SniAt(m, i) || TlsAt(m, i) }

  /** An accepted name goes through the HTTP proxy exactly if it says http, and over TLS exactly if it says sni or tls;
      a canonical name stands for itself. */
  lemma ModeIsItsName(m: string)
    requires Canonical(m) != ""
    ensures ModeHasProxy(Canonical(m)) <==> NamesHttp(m)
    ensures ModeHasTls(Canonical(m)) <==> NamesTls(m)
    ensures Canonical(m) in ["direct", "http_proxy", "tls_sni", "http_proxy_tls_sni"]
    ensures Canonical(Canonical(m)) == Canonical(m)
  {
    if m in ["direct", "ssh", "ssh_payload", "ssh+pl"] {
      DirectNames(m);
    } else if m in ["http_proxy", "ssh_http_proxy", "ssh+http", "ssh+http_proxy", "ssh+pl+http"] {
      HttpNames(m);
    } else if m in ["tls_sni", "sni", "ssh+sni", "ssh+pl+sni"] {
      SniNames(m);
    } else {
      HttpSniNames(m);
    }
    CanonicalIsFixed(m);
  }

  lemma CanonicalIsFixed(m: string)
    ensures Canonical(Canonical(m)) == Canonical(m)
  {
  }

  lemma DirectNames(m: string)
    requires m in ["direct", "ssh", "ssh_payload", "ssh+pl"]
    ensures !NamesHttp(m) && !NamesTls(m)
  {
    forall i: nat
      ensures !HttpAt(m, i) && !SniAt(m, i) && !TlsAt(m, i)
    {
    }
  }

  lemma HttpNames(m: string)
    requires m in ["http_proxy", "ssh_http_proxy", "ssh+http", "ssh+http_proxy", "ssh+pl+http"]
    ensures NamesHttp(m) && !NamesTls(m)
  {
    assert HttpAt(m, 0) || HttpAt(m, 4) || HttpAt(m, 7);
    forall i: nat
      ensures !SniAt(m, i) && !TlsAt(m, i)
    {
    }
  }

  lemma SniNames(m: string)
    requires m in ["tls_sni", "sni", "ssh+sni", "ssh+pl+sni"]
    ensures !NamesHttp(m) && NamesTls(m)
  {
    assert TlsAt(m, 0) || SniAt(m, 0) || SniAt(m, 4) || SniAt(m, 7);
    forall i: nat
      ensures !HttpAt(m, i)
    {
    }
  }

  lemma HttpSniNames(m: string)
    requires m in ["http_proxy_tls_sni", "http_tls", "ssh+http+sni", "ssh+pl+http+sni"]
    ensures NamesHttp(m) && NamesTls(m)
  {
    assert HttpAt(m, 0) || HttpAt(m, 4) || HttpAt(m, 7);
    assert TlsAt(m, 11) || TlsAt(m, 5) || SniAt(m, 9) || SniAt(m, 12);
  }

  /** Capitals and spaces around a mode make no difference. */
  lemma ModeIsTrimmed(a: string, m: string, b: string)
    requires Spaces(a) && Spaces(b) && NoSpaceEnds(ToLower(m))
    ensures NormalizeMode(a + m + b) == Canonical(ToLower(m))
  {
    assert ToLower(a + m + b) == ToLower(a) + ToLower(m) + ToLower(b);
    LowerSpaces(a);
    LowerSpaces(b);
    TrimSpaceCuts(ToLower(a), ToLower(m), ToLower(b));
  }

  lemma LowerSpaces(a: string)
    requires Spaces(a)
    ensures Spaces(ToLower(a))
  {
    forall c | c in ToLower(a)
      ensures IsSpace(c)
    {
      var i :| 0 <= i < |a| && ToLower(a)[i] == c;
      assert a[i] in a;
    }
  }

  // ------------------------------------------------------------ naming

  /** A new profile takes the slug of its name, or "profile" if that is empty; if that is taken the first free of
      -2, -3 and so on up to -9999; and if all are taken the clock. */
  lemma FreshIsFirst(ps: seq<Profile>, name: string, clock: nat, k: nat)
    ensures Base(name) == if Slug(name) == "" then "profile" else Slug(name)
    ensures !HasId(ps, Base(name)) ==> UniqueId(ps, name, clock) == Base(name)
    ensures HasId(ps, Base(name)) && Taken(ps, Base(name), k) && 2 <= k < 10000
            && !HasId(ps, Candidate(Base(name), k)) ==>
              UniqueId(ps, name, clock) == Base(name) + "-" + Itoa(k)
    ensures HasId(ps, Base(name)) && Taken(ps, Base(name), 10000) ==>
              UniqueId(ps, name, clock) == Base(name) + "-" + Itoa(clock)
  {
    SlugIsSlug(name);
    SlugOfSlug(Slug(name));
    if Taken(ps, Base(name), k) && 2 <= k < 10000 {
      FirstFreeIsFirst(ps, Base(name), 2, k);
    }
    if Taken(ps, Base(name), 10000) {
      FirstFreeIsFirst(ps, Base(name), 2, 10000);
    }
  }

  /** The candidates from 2 up to k, without k, are all in use. */
  ghost predicate Taken(ps: seq<Profile>, base: string, k: nat)
  {
    forall i | 2 <= i < k :: HasId(ps, Candidate(base, i))
  }

  lemma {:induction false} FirstFreeIsFirst(ps: seq<Profile>, base: string, n: nat, k: nat)
    requires 2 <= n <= k <= SUFFIX_LIMIT && Taken(ps, base, k)
    ensures k == SUFFIX_LIMIT ==> FirstFree(ps, base, n) == None
    ensures k < SUFFIX_LIMIT && !HasId(ps, Candidate(base, k)) ==> FirstFree(ps, base, n) == Some(Candidate(base, k))
    decreases k - n
  {
    if n < k {
      assert HasId(ps, Candidate(base, n));
      FirstFreeIsFirst(ps, base, n + 1, k);
    }
  }

  // ------------------------------------------------------------ selecting

  /** The flag and the id of a selection go to the wanted profile, and then it is the one in use. */
  lemma SelectedIsUsed(f: File, wanted: string, i: nat)
    requires i < |f.profiles| && f.profiles[i].id == TrimSpace(wanted) != ""
    requires forall k | 0 <= k < i :: f.profiles[k].id != TrimSpace(wanted)
    ensures var r := Select(f, wanted);
      && r.error == None && r.file.selectedId == TrimSpace(wanted) && |r.file.profiles| == |f.profiles|
      && SelectedProfile(r.file) == Some(f.profiles[i].(selected := true))
      && forall k | 0 <= k < |f.profiles| ::
           r.file.profiles[k] == f.profiles[k].(selected := f.profiles[k].id == TrimSpace(wanted))
  {
  }

  lemma {:induction false} FlaggedFirst(ps: seq<Profile>, from: nat, i: nat)
    requires from <= i < |ps| && ps[i].selected && forall k | from <= k < i :: !ps[k].selected
    ensures FirstFlagged(ps, from) == Some(i)
    decreases i - from
  {
    if from < i {
      FlaggedFirst(ps, from + 1, i);
    }
  }

  lemma {:induction false} NoneFlagged(ps: seq<Profile>, from: nat)
    requires from <= |ps| && forall k | from <= k < |ps| :: !ps[k].selected
    ensures FirstFlagged(ps, from) == None
    decreases |ps| - from
  {
    if from < |ps| {
      NoneFlagged(ps, from + 1);
    }
  }

  /** Without a profile of the selected id the first flagged one is used, and without a flag the first of all. */
  lemma FlagThenFirst(f: File, i: nat)
    requires f.selectedId == "" || !HasId(f.profiles, f.selectedId)
    requires i < |f.profiles| && forall k | 0 <= k < i :: !f.profiles[k].selected
    ensures f.profiles[i].selected ==> SelectedProfile(f) == Some(f.profiles[i])
    ensures (forall k | 0 <= k < |f.profiles| :: !f.profiles[k].selected) ==>
              SelectedProfile(f) == Some(f.profiles[0])
    ensures SelectedProfile(f.(profiles := [])) == None
  {
    if f.profiles[i].selected {
      FlaggedFirst(f.profiles, 0, i);
    }
    if forall k | 0 <= k < |f.profiles| :: !f.profiles[k].selected {
      NoneFlagged(f.profiles, 0);
    }
  }

  // ------------------------------------------------------------ saving

  /** A save is refused exactly if it lacks a host, a port, a user or a mode, a selection and a deletion if they name
      nothing or nobody; then no profile and no selected id changes. */
  lemma RefusedIff(f: File, req: Request, clock: nat, id: string)
    ensures var save, choice, gone := Upsert(f, req, clock), Select(f, id), Delete(f, id);
      && (save.error.None? <==> TrimSpace(req.ssh.host) != "" && 1 <= req.ssh.port <= 65535
                                && TrimSpace(req.ssh.username) != "" && NormalizeMode(req.mode) != "")
      && (save.error.Some? ==> save.file == f)
      && (choice.error.None? <==> TrimSpace(id) != "" && HasId(f.profiles, TrimSpace(id)))
      && (choice.error.Some? ==>
            && choice.file.selectedId == f.selectedId && |choice.file.profiles| == |f.profiles|
            && forall i | 0 <= i < |f.profiles| ::
                 choice.file.profiles[i].(selected := f.profiles[i].selected) == f.profiles[i])
      && (gone.error.None? <==> id != "" && HasId(f.profiles, id))
      && (gone.error.Some? ==> gone.file == f)
  {
  }

  /** What is stored of a request, where `kept` is the password of the profile it replaces. */
  ghost predicate StoredAs(p: Profile, req: Request, id: string, kept: string)
  {
    && p.id == id
    && p.name == (if TrimSpace(req.name) == "" then "SSHCustom Profile" else TrimSpace(req.name))
    && p.ssh.host == req.ssh.host && p.ssh.port == req.ssh.port && p.ssh.username == req.ssh.username
    && p.ssh.fallbackIPs == req.ssh.fallbackIPs
    && p.ssh.password == (if req.ssh.password != "" then req.ssh.password else kept)
    && p.ssh.authType == (if req.ssh.authType != "" then req.ssh.authType else "password")
    && p.transport == Build(NormalizeMode(req.mode), req.payload, req.httpProxy, req.tls, p.ssh)
  }

  lemma InstallStores(f: File, req: Request, id: string, i: nat)
    requires i == Slot(f.profiles, req, id)
    ensures var g := Install(f, req, id).profiles;
      && |g| == (if i < |f.profiles| then |f.profiles| else i + 1)
      && StoredAs(g[i], req, id, if i < |f.profiles| then f.profiles[i].ssh.password else "")
  {
    var p := Stored(req, id, OldPassword(f.profiles, i));
    assert StoredAs(p, req, id, OldPassword(f.profiles, i));
    var g := f.(profiles := Put(f.profiles, i, p));
    assert g.profiles[i] == p;
    assert Install(f, req, id) == g || Install(f, req, id) == Select(g, id).file;
    assert Marked(g.profiles, TrimSpace(id))[i] == p.(selected := p.id == TrimSpace(id));
  }

  /** A save without an id, or with one that nobody has, appends a profile that holds what the request gives. */
  lemma NewProfileIsStored(f: File, req: Request, clock: nat)
    requires Upsert(f, req, clock).error.None?
    requires TrimSpace(req.id) == "" || !HasId(f.profiles, TrimSpace(req.id))
    ensures var g, id := Upsert(f, req, clock).file.profiles, IdFor(f.profiles, req, clock);
      |g| == |f.profiles| + 1 && StoredAs(g[|f.profiles|], req, id, "")
  {
    InstallStores(f, req, IdFor(f.profiles, req, clock), |f.profiles|);
  }

  /** A save with the id of a profile replaces the first that has it, keeping its password if the request has none. */
  lemma EditedProfileIsStored(f: File, req: Request, clock: nat, i: nat)
    requires Upsert(f, req, clock).error.None? && i < |f.profiles| && f.profiles[i].id == TrimSpace(req.id) != ""
    requires forall k | 0 <= k < i :: f.profiles[k].id != TrimSpace(req.id)
    ensures var g := Upsert(f, req, clock).file.profiles;
      |g| == |f.profiles| && StoredAs(g[i], req, TrimSpace(req.id), f.profiles[i].ssh.password)
  {
    InstallStores(f, req, TrimSpace(req.id), i);
  }

  /** Which saves select as well: those that ask to, those of the selected profile, and any while none is selected. */
  lemma SaveSelectsIff(f: File, req: Request, clock: nat)
    requires Upsert(f, req, clock).error.None?
    ensures var id := IdFor(f.profiles, req, clock);
      Upsert(f, req, clock).file.selectedId
      == if req.select || f.selectedId == "" then id else f.selectedId
  {
    var id := IdFor(f.profiles, req, clock);
    ProfileStore.IdIsTrimmed(f.profiles, req, clock);
    var i := Slot(f.profiles, req, id);
    var g := f.(profiles := Put(f.profiles, i, Stored(req, id, OldPassword(f.profiles, i))));
    assert g.profiles[i].id == id;
  }

  // ------------------------------------------------------------ the handlers

  /** A handler that meets no fault and makes a valid edit answers without an error, and then the file and the daemon's
      copy are both the edited file. In every other case nothing is changed and the error says what failed. */
  lemma HandledIff(s: ProfileStore.Stores, op: ProfileStore.Op)
    ensures var out, r := ProfileStore.Edit(s.disk, op), ProfileStore.Step(s, op);
      var error := ProfileStore.Answer(s, op);
      && (op.fault.NoFault? && out.error.None? ==>
            error.None? && r.memory == out.file && r.disk == (if op.Reload? then s.disk else out.file))
      && (op.Reload? ==> out.file == s.disk && (error.None? <==> !op.fault.LoadFails?))
      && (!op.Reload? ==> (error.None? <==> op.fault.NoFault? && out.error.None?))
      && (error.Some? ==> r == s)
      && (error.Some? && !(op.Remove? && op.id == "") ==>
            error == if op.fault.LoadFails? then Some(CannotLoad)
                     else if out.error.Some? then out.error
                     else Some(CannotSave))
  {
  }

  // ------------------------------------------------------------ deleting

  lemma {:induction false} WithoutParts(a: seq<Profile>, b: seq<Profile>, id: string)
    ensures Without(a + b, id) == Without(a, id) + Without(b, id)
  {
    if b == [] {
      assert a + b == a;
    } else {
      var n := |b| - 1;
      assert (a + b)[..|a| + n] == a + b[..n];
      WithoutParts(a, b[..n], id);
    }
  }

  lemma {:induction false} WithoutNone(a: seq<Profile>, id: string)
    requires !HasId(a, id)
    ensures Without(a, id) == a
  {
    if a != [] {
      var n := |a| - 1;
      WithoutNone(a[..n], id);
      assert a == a[..n] + [a[n]];
    }
  }

  /** Deleting takes the profile out from between its neighbours, and the selection goes with it or stays. */
  lemma DeleteTakesOne(f: File, a: seq<Profile>, p: Profile, b: seq<Profile>)
    requires f.profiles == a + ([p] + b) && p.id != "" && !HasId(a, p.id) && !HasId(b, p.id)
    ensures Delete(f, p.id)
            == Outcome(File(if f.selectedId == p.id then "" else f.selectedId, a + b), None)
  {
    assert f.profiles[|a|] == p;
    WithoutBetween(a, p, b);
  }

  lemma WithoutItself(p: Profile)
    ensures Without([p], p.id) == []
  {
    assert [p][..0] == [];
  }

  lemma WithoutBetween(a: seq<Profile>, p: Profile, b: seq<Profile>)
    requires !HasId(a, p.id) && !HasId(b, p.id)
    ensures Without(a + ([p] + b), p.id) == a + b
  {
    WithoutParts(a, [p] + b, p.id);
    WithoutParts([p], b, p.id);
    WithoutItself(p);
    WithoutNone(a, p.id);
    WithoutNone(b, p.id);
    NothingBetween(a, b);
  }

  lemma NothingBetween(a: seq<Profile>, b: seq<Profile>)
    ensures a + ([] + b) == a + b
  {
  }
}
