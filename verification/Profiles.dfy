/** The profile store: the working copy that the handlers edit, and the file it is saved to. */
module Profiles {
  import opened Seqs
  import opened Text
  import opened Transport

  datatype Profile = Profile(id: string, name: string, selected: bool, ssh: Ssh, transport: TConf)

  datatype File = File(selectedId: string, profiles: seq<Profile>)

  datatype Request = Request(id: string, name: string, select: bool, ssh: Ssh,
                             mode: string, httpProxy: Option<HttpProxy>, tls: Option<Tls>, payload: Payload)

  datatype Error =
    | IdRequired | NotFound | HostRequired | BadPort | UsernameRequired | BadMode
    | CannotLoad | CannotSave

  /** What an edit leaves in the working copy, and the error it reports. */
  datatype Outcome = Outcome(file: File, error: Option<Error>)

  const DEFAULT_NAME := "SSHCustom Profile"
  const SUFFIX_LIMIT: nat := 10000

  predicate HasId(ps: seq<Profile>, id: string)
  {
    exists i | 0 <= i < |ps| :: ps[i].id == id
  }

  function Find(ps: seq<Profile>, id: string, from: nat): (r: Option<nat>)
    requires from <= |ps|
    ensures r.Some? ==> from <= r.value < |ps| && ps[r.value].id == id
    ensures r.Some? ==> forall k | from <= k < r.value :: ps[k].id != id
    ensures r.None? ==> forall k | from <= k < |ps| :: ps[k].id != id
    decreases |ps| - from
  {
    if from == |ps| then None else if ps[from].id == id then Some(from) else Find(ps, id, from + 1)
  }

  // ------------------------------------------------------------ selecting

  function Marked(ps: seq<Profile>, id: string): (r: seq<Profile>)
    ensures |r| == |ps| && forall i | 0 <= i < |ps| :: r[i] == ps[i].(selected := ps[i].id == id)
  {
    seq(|ps|, i requires 0 <= i < |ps| => ps[i].(selected := ps[i].id == id))
  }

  function Select(f: File, wanted: string): Outcome
  {
    var id := TrimSpace(wanted);
    if id == "" then Outcome(f, Some(IdRequired))
    else if !HasId(f.profiles, id) then Outcome(f.(profiles := Marked(f.profiles, id)), Some(NotFound))
    else Outcome(File(id, Marked(f.profiles, id)), None)
  }

  function FirstFlagged(ps: seq<Profile>, from: nat): Option<nat>
    requires from <= |ps|
    decreases |ps| - from
  {
    if from == |ps| then None else if ps[from].selected then Some(from) else FirstFlagged(ps, from + 1)
  }

  function SelectedProfile(f: File): Option<Profile>
  {
    var byId := if f.selectedId != "" then Find(f.profiles, f.selectedId, 0) else None;
    var byFlag := FirstFlagged(f.profiles, 0);
    if byId.Some? then Some(f.profiles[byId.value])
    else if byFlag.Some? && byFlag.value < |f.profiles| then Some(f.profiles[byFlag.value])
    else if |f.profiles| > 0 then Some(f.profiles[0])
    else None
  }

  // ------------------------------------------------------------ naming

  function Candidate(base: string, n: nat): string { base + "-" + Itoa(n) }

  function FirstFree(ps: seq<Profile>, base: string, n: nat): Option<string>
    decreases SUFFIX_LIMIT - n, ps
  {
    if n >= SUFFIX_LIMIT then None
    else if !HasId(ps, Candidate(base, n)) then Some(Candidate(base, n))
    else FirstFree(ps, base, n + 1)
  }

  function Base(name: string): string
  {
    var slug := TrimDash(Slug(name));
    if slug == "" then "profile" else slug
  }

  function UniqueId(ps: seq<Profile>, name: string, clock: nat): string
  {
    var base := Base(name);
    if !HasId(ps, base) then base
    else
      match FirstFree(ps, base, 2)
      case Some(id) => id
      case None => Candidate(base, clock)
  }

  // ------------------------------------------------------------ saving

  function Canonical(m: string): string
  {
    if m in ["direct", "ssh", "ssh_payload", "ssh+pl"] then "direct"
    else if m in ["http_proxy", "ssh_http_proxy", "ssh+http", "ssh+http_proxy", "ssh+pl+http"] then "http_proxy"
    else if m in ["tls_sni", "sni", "ssh+sni", "ssh+pl+sni"] then "tls_sni"
    else if m in ["http_proxy_tls_sni", "http_tls", "ssh+http+sni", "ssh+pl+http+sni"] then "http_proxy_tls_sni"
    else ""
  }

  function NormalizeMode(mode: string): string { Canonical(TrimSpace(ToLower(mode))) }

  function Invalid(ssh: Ssh, mode: string): Option<Error>
  {
    if TrimSpace(ssh.host) == "" then Some(HostRequired)
    else if ssh.port <= 0 || ssh.port > 65535 then Some(BadPort)
    else if TrimSpace(ssh.username) == "" then Some(UsernameRequired)
    else if NormalizeMode(mode) == "" then Some(BadMode)
    else None
  }

  predicate Creating(req: Request) { TrimSpace(req.id) == "" }

  function NameOf(req: Request): string
  {
    if TrimSpace(req.name) == "" then DEFAULT_NAME else TrimSpace(req.name)
  }

  function IdFor(ps: seq<Profile>, req: Request, clock: nat): string
  {
    var id := if Creating(req) then UniqueId(ps, Slug(NameOf(req)), clock) else TrimSpace(req.id);
    if id == "" then UniqueId(ps, "profile-" + Itoa(clock), clock) else id
  }

  function Credentials(ssh: Ssh, oldPassword: string): Ssh
  {
    ssh.(
      password := if ssh.password == "" then oldPassword else ssh.password,
      authType := if ssh.authType == "" then "password" else ssh.authType)
  }

  function Stored(req: Request, id: string, oldPassword: string): Profile
  {
    var ssh := Credentials(req.ssh, oldPassword);
    Profile(id, NameOf(req), false, ssh, Build(NormalizeMode(req.mode), req.payload, req.httpProxy, req.tls, ssh))
  }

  /** Where a save writes: over the profile with that id, or at the end. */
  function Slot(ps: seq<Profile>, req: Request, id: string): (i: nat)
    ensures i <= |ps|
  {
    var at := Find(ps, id, 0);
    if Creating(req) || at.None? then |ps| else at.value
  }

  function Put(ps: seq<Profile>, i: nat, p: Profile): seq<Profile>
    requires i <= |ps|
  {
    if i < |ps| then ps[i := p] else ps + [p]
  }

  /** The stored password that an empty one in a request stands for. */
  function OldPassword(ps: seq<Profile>, i: nat): string
  {
    if i < |ps| then ps[i].ssh.password else ""
  }

  function Install(f: File, req: Request, id: string): File
  {
    var i := Slot(f.profiles, req, id);
    var g := f.(profiles := Put(f.profiles, i, Stored(req, id, OldPassword(f.profiles, i))));
    if req.select || f.selectedId == "" || f.selectedId == id then Select(g, id).file else g
  }

  function Upsert(f: File, req: Request, clock: nat): Outcome
  {
    if Invalid(req.ssh, req.mode).Some? then Outcome(f, Invalid(req.ssh, req.mode))
    else Outcome(Install(f, req, IdFor(f.profiles, req, clock)), None)
  }

  // ------------------------------------------------------------ deleting

  function Without(ps: seq<Profile>, id: string): seq<Profile>
  {
    if ps == [] then []
    else if ps[|ps| - 1].id == id then Without(ps[..|ps| - 1], id)
    else Without(ps[..|ps| - 1], id) + [ps[|ps| - 1]]
  }

  function Delete(f: File, id: string): Outcome
  {
    if id == "" then Outcome(f, Some(IdRequired))
    else if !HasId(f.profiles, id) then Outcome(f, Some(NotFound))
    else Outcome(File(if f.selectedId == id then "" else f.selectedId, Without(f.profiles, id)), None)
  }

  // ------------------------------------------------------------ the working copy, edited in place

  class ProfilesFile {
    var selectedId: string
    var profiles: seq<Profile>

    constructor (f: File)
      ensures View() == f
    {
      selectedId, profiles := f.selectedId, f.profiles;
    }

    function View(): File
      reads this
    {
      File(selectedId, profiles)
    }

    method SelectProfileById(wanted: string) returns (error: Option<Error>)
      modifies this
      ensures Outcome(View(), error) == Select(old(View()), wanted)
    {
      var id := TrimSpace(wanted);
      if id == "" {
        return Some(IdRequired);
      }
      ghost var was := profiles;
      var found := false;
      var i := 0;
      while i < |profiles|
        invariant 0 <= i <= |profiles| == |was|
        invariant selectedId == old(selectedId)
        invariant profiles[..i] == Marked(was, id)[..i] && profiles[i..] == was[i..]
        invariant found <==> exists k | 0 <= k < i :: was[k].id == id
      {
        var p := profiles[i];
        assert p == was[i];
        profiles := profiles[i := p.(selected := p.id == id)];
        if profiles[i].selected {
          found := true;
        }
        i := i + 1;
      }
      assert profiles == Marked(was, id);
      if !found {
        return Some(NotFound);
      }
      selectedId := id;
      return None;
    }

    method Selected() returns (r: Option<Profile>)
      ensures r == SelectedProfile(View())
    {
      if selectedId != "" {
        var i := 0;
        while i < |profiles|
          invariant 0 <= i <= |profiles|
          invariant Find(profiles, selectedId, i) == Find(profiles, selectedId, 0)
        {
          if profiles[i].id == selectedId {
            return Some(profiles[i]);
          }
          i := i + 1;
        }
      }
      var i := 0;
      while i < |profiles|
        invariant 0 <= i <= |profiles|
        invariant FirstFlagged(profiles, i) == FirstFlagged(profiles, 0)
      {
        if profiles[i].selected {
          return Some(profiles[i]);
        }
        i := i + 1;
      }
      if |profiles| > 0 {
        return Some(profiles[0]);
      }
      return None;
    }

    method UniqueProfileId(name: string, clock: nat) returns (id: string)
      ensures id == UniqueId(profiles, name, clock)
    {
      var slug := Slugify(name);
      var base := TrimDash(slug);
      if base == "" {
        base := "profile";
      }
      var used: set<string> := {};
      var i := 0;
      while i < |profiles|
        invariant 0 <= i <= |profiles|
        invariant forall x :: x in used <==> exists k | 0 <= k < i :: profiles[k].id == x
      {
        used := used + {profiles[i].id};
        i := i + 1;
      }
      assert forall x :: x in used <==> HasId(profiles, x);
      if base !in used {
        return base;
      }
      var n := 2;
      while n < SUFFIX_LIMIT
        invariant 2 <= n <= SUFFIX_LIMIT
        invariant FirstFree(profiles, base, n) == FirstFree(profiles, base, 2)
      {
        var candidate := Candidate(base, n);
        if candidate !in used {
          return candidate;
        }
        n := n + 1;
      }
      return Candidate(base, clock);
    }

    /** The id an upsert works on: the trimmed one, or a fresh one when it is empty. */
    method ChooseId(req: Request, clock: nat) returns (id: string)
      ensures id == IdFor(profiles, req, clock)
    {
      id := TrimSpace(req.id);
      if id == "" {
        var name := TrimSpace(req.name);
        if name == "" {
          name := DEFAULT_NAME;
        }
        var slug := Slugify(name);
        id := UniqueProfileId(slug, clock);
      }
      if id == "" {
        id := UniqueProfileId("profile-" + Itoa(clock), clock);
      }
    }

    method IndexOf(id: string) returns (idx: int)
      ensures idx == match Find(profiles, id, 0) case Some(k) => k as int case None => -1
    {
      var i := 0;
      while i < |profiles|
        invariant 0 <= i <= |profiles|
        invariant Find(profiles, id, i) == Find(profiles, id, 0)
      {
        if profiles[i].id == id {
          return i;
        }
        i := i + 1;
      }
      return -1;
    }

    static method Assemble(req: Request, id: string, oldPassword: string) returns (p: Profile)
      ensures p == Stored(req, id, oldPassword)
    {
      var name := TrimSpace(req.name);
      if name == "" {
        name := DEFAULT_NAME;
      }
      var ssh := req.ssh;
      if ssh.password == "" {
        ssh := ssh.(password := oldPassword);
      }
      if ssh.authType == "" {
        ssh := ssh.(authType := "password");
      }
      var mode := NormalizeMode(req.mode);
      var transport := BuildTransport(mode, req.payload, req.httpProxy, req.tls, ssh);
      p := Profile(id, name, false, ssh, transport);
    }

    method UpsertProfile(req: Request, clock: nat) returns (error: Option<Error>)
      modifies this
      ensures Outcome(View(), error) == Upsert(old(View()), req, clock)
    {
      var creatingNew := TrimSpace(req.id) == "";
      var id := ChooseId(req, clock);
      if TrimSpace(req.ssh.host) == "" {
        return Some(HostRequired);
      }
      if req.ssh.port <= 0 || req.ssh.port > 65535 {
        return Some(BadPort);
      }
      if TrimSpace(req.ssh.username) == "" {
        return Some(UsernameRequired);
      }
      if NormalizeMode(req.mode) == "" {
        return Some(BadMode);
      }
      var idx := IndexOf(id);
      if creatingNew {
        idx := -1;
      }
      var oldPassword := "";
      if idx >= 0 {
        oldPassword := profiles[idx].ssh.password;
      }
      var p := Assemble(req, id, oldPassword);
      if idx >= 0 {
        profiles := profiles[idx := p];
      } else {
        profiles := profiles + [p];
      }
      if req.select || selectedId == "" || selectedId == id {
        var _ := SelectProfileById(id);
      }
      return None;
    }

    method DeleteProfile(id: string) returns (error: Option<Error>)
      modifies this
      ensures Outcome(View(), error) == Delete(old(View()), id)
    {
      if id == "" {
        return Some(IdRequired);
      }
      var found := false;
      var filtered: seq<Profile> := [];
      var i := 0;
      while i < |profiles|
        invariant 0 <= i <= |profiles|
        invariant filtered == Without(profiles[..i], id)
        invariant found <==> exists k | 0 <= k < i :: profiles[k].id == id
      {
        assert profiles[..i + 1][..i] == profiles[..i];
        if profiles[i].id == id {
          found := true;
        } else {
          filtered := filtered + [profiles[i]];
        }
        i := i + 1;
      }
      assert profiles[..|profiles|] == profiles;
      if !found {
        return Some(NotFound);
      }
      profiles := filtered;
      if selectedId == id {
        selectedId := "";
      }
      return None;
    }
  }
}
