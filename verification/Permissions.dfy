/** Access strings, object-class permissions and administrative permissions of a session
    (infra/auth/auth_connection.go, permission.go, session.go). */
module Permissions {
  import opened Arithmetic
  import opened Model

  /** One user object class as the authorization service reports it. */
  datatype Objclass = Objclass(id: int, name: string, obac: bool, rbac: bool, access: string)

  datatype SessionPermission = SessionPermission(id: int, name: string, obac: bool, rbac: bool, access: bv32)

  datatype PermissionAccess = Create | Read | Update | Delete {
    function Value(): bv32 {
      match this
      case Create => 8
      case Read => 4
      case Update => 2
      case Delete => 1
    }

    /** The access letter that grants this operation. */
    function Letter(): char {
      match this
      case Create => 'x'
      case Read => 'r'
      case Update => 'w'
      case Delete => 'd'
    }
  }

  // ---- access strings

  const NIBBLE: bv3 := 4

  predicate IsLetter(c: char) {
    c == 'x' || c == 'r' || c == 'w' || c == 'd'
  }

  predicate ValidAccess(s: string) {
    forall c :: c in s ==> IsLetter(c)
  }

  function Bits(x: bool, r: bool, w: bool, d: bool): bv32 {
    (if x then 8 else 0) | (if r then 4 else 0) | (if w then 2 else 0) | (if d then 1 else 0)
  }

  /** One bit for each letter that occurs, and in the high nibble one for each that occurs again. */
  function Nibbles(x: nat, r: nat, w: nat, d: nat): bv32 {
    Bits(x >= 1, r >= 1, w >= 1, d >= 1) | (Bits(x >= 2, r >= 2, w >= 2, d >= 2) << NIBBLE)
  }

  /** What an access string means. */
  function Grants(s: string): bv32 {
    if ValidAccess(s) then Nibbles(Count(s, 'x'), Count(s, 'r'), Count(s, 'w'), Count(s, 'd')) else 0
  }

  /** What one letter makes of the grants: its low bit the first time, its high bit from then on. */
  function Mark(grants: bv32, grant: bv32): bv32 {
    if grants & grant == grant then grants | (grant << NIBBLE) else grants | grant
  }

  function Bit(c: char): bv32 {
    if c == 'x' then 8 else if c == 'r' then 4 else if c == 'w' then 2 else 1
  }

  function MarkChar(grants: bv32, c: char): bv32 {
    Mark(grants, Bit(c))
  }

  /** A step for each letter, one after the other. */
  function Fold<G>(s: string, start: G, step: (G, char) -> G): G {
    if s == [] then start else step(Fold(s[..|s| - 1], start, step), s[|s| - 1])
  }

  lemma MarkX(x: nat, r: nat, w: nat, d: nat)
    ensures Mark(Nibbles(x, r, w, d), 8) == Nibbles(x + 1, r, w, d)
  {
  }

  lemma MarkR(x: nat, r: nat, w: nat, d: nat)
    ensures Mark(Nibbles(x, r, w, d), 4) == Nibbles(x, r + 1, w, d)
  {
  }

  lemma MarkW(x: nat, r: nat, w: nat, d: nat)
    ensures Mark(Nibbles(x, r, w, d), 2) == Nibbles(x, r, w + 1, d)
  {
  }

  lemma MarkD(x: nat, r: nat, w: nat, d: nat)
    ensures Mark(Nibbles(x, r, w, d), 1) == Nibbles(x, r, w, d + 1)
  {
  }

  lemma MarkLetter(x: nat, r: nat, w: nat, d: nat, c: char)
    requires IsLetter(c)
    ensures Mark(Nibbles(x, r, w, d), Bit(c))
            == Nibbles(x + One(c == 'x'), r + One(c == 'r'), w + One(c == 'w'), d + One(c == 'd'))
  {
    MarkX(x, r, w, d);
    MarkR(x, r, w, d);
    MarkW(x, r, w, d);
    MarkD(x, r, w, d);
  }

  lemma ValidInit(s: string)
    requires s != [] && ValidAccess(s)
    ensures ValidAccess(s[..|s| - 1]) && IsLetter(s[|s| - 1])
  {
    assert s[|s| - 1] in s && forall e :: e in s[..|s| - 1] ==> e in s;
  }

  /** A step that adds its letter to a summary of the counts leads to the summary of all counts. */
  lemma {:induction false} FoldCounts<G>(s: string, step: (G, char) -> G, summary: (nat, nat, nat, nat) -> G)
    requires ValidAccess(s)
    requires forall x: nat, r: nat, w: nat, d: nat, c: char :: IsLetter(c) ==>
               step(summary(x, r, w, d), c)
               == summary(x + One(c == 'x'), r + One(c == 'r'), w + One(c == 'w'), d + One(c == 'd'))
    ensures Fold(s, summary(0, 0, 0, 0), step) == summary(Count(s, 'x'), Count(s, 'r'), Count(s, 'w'), Count(s, 'd'))
  {
    if s != [] {
      var init, c := s[..|s| - 1], s[|s| - 1];
      ValidInit(s);
      FoldCounts(init, step, summary);
      var x, r, w, d := Count(init, 'x'), Count(init, 'r'), Count(init, 'w'), Count(init, 'd');
      assert step(summary(x, r, w, d), c)
             == summary(x + One(c == 'x'), r + One(c == 'r'), w + One(c == 'w'), d + One(c == 'd'));
    }
  }

  lemma MarkedCounts(s: string)
    requires ValidAccess(s)
    ensures Fold(s, 0, MarkChar) == Grants(s)
  {
    forall x: nat, r: nat, w: nat, d: nat, c: char | IsLetter(c)
      ensures MarkChar(Nibbles(x, r, w, d), c)
              == Nibbles(x + One(c == 'x'), r + One(c == 'r'), w + One(c == 'w'), d + One(c == 'd'))
    {
      MarkLetter(x, r, w, d, c);
    }
    FoldCounts(s, MarkChar, Nibbles);
  }

  lemma FoldMore<G>(s: string, c: char, start: G, step: (G, char) -> G)
    ensures Fold(s + [c], start, step) == step(Fold(s, start, step), c)
  {
    assert (s + [c])[..|s + [c]| - 1] == s;
  }

  /** The switch on one letter. */
  method GrantOf(c: char) returns (grant: bv32, known: bool)
    ensures known <==> IsLetter(c)
    ensures known ==> grant == Bit(c)
  {
    match c {
      case 'x' => return 8, true;
      case 'r' => return 4, true;
      case 'w' => return 2, true;
      case 'd' => return 1, true;
      case _ => return 0, false;
    }
  }

  /** A mode that is set already is granted, any other is set. */
  method MarkOne(grants: bv32, grant: bv32) returns (next: bv32)
    ensures next == Mark(grants, grant)
  {
    if grants & grant == grant {
      next := grants | (grant << NIBBLE);
    } else {
      next := grants | grant;
    }
  }

  method MarkKnown(grants: bv32, c: char) returns (next: bv32, known: bool)
    ensures known <==> IsLetter(c)
    ensures known ==> next == MarkChar(grants, c)
  {
    var grant;
    grant, known := GrantOf(c);
    next := MarkOne(grants, grant);
  }

  method MarkAll(s: string) returns (grants: bv32, ok: bool)
    ensures ok <==> ValidAccess(s)
    ensures grants == if ok then Fold(s, 0, MarkChar) else 0
  {
    grants := 0;
    var k := 0;
    while k < |s|
      invariant k <= |s| && ValidAccess(s[..k])
      invariant grants == Fold(s[..k], 0, MarkChar)
    {
      var next, known := MarkKnown(grants, s[k]);
      assert s[..k + 1] == s[..k] + [s[k]] && s[k] in s;
      if !known {
        return 0, false;
      }
      FoldMore(s[..k], s[k], 0, MarkChar);
      grants := next;
      k := k + 1;
    }
    ok := true;
    assert s[..k] == s;
  }

  method ParseAccess(s: string) returns (grants: bv32, ok: bool)
    ensures ok <==> ValidAccess(s)
    ensures grants == Grants(s)
  {
    grants, ok := MarkAll(s);
    if ok {
      MarkedCounts(s);
    }
  }

  lemma {:induction false} CountIsMultiplicity(s: string, c: char)
    ensures Count(s, c) == multiset(s)[c]
  {
    if s != [] {
      assert s == s[..|s| - 1] + [s[|s| - 1]];
      CountIsMultiplicity(s[..|s| - 1], c);
    }
  }

  lemma SameLetters(s: string, t: string, c: char)
    requires multiset(s) == multiset(t)
    ensures Count(s, c) == Count(t, c) && (c in s <==> c in t)
  {
    CountIsMultiplicity(s, c);
    CountIsMultiplicity(t, c);
    assert c in s <==> c in multiset(s);
    assert c in t <==> c in multiset(t);
  }

  lemma SameValidity(s: string, t: string)
    requires multiset(s) == multiset(t)
    ensures ValidAccess(s) <==> ValidAccess(t)
  {
    forall c: char ensures c in s <==> c in t {
      SameLetters(s, t, c);
    }
  }

  /** The order of the letters does not matter. */
  lemma OrderIsIrrelevant(s: string, t: string)
    requires multiset(s) == multiset(t)
    ensures Grants(s) == Grants(t) && (ValidAccess(s) <==> ValidAccess(t))
  {
    SameLetters(s, t, 'x');
    SameLetters(s, t, 'r');
    SameLetters(s, t, 'w');
    SameLetters(s, t, 'd');
    SameValidity(s, t);
  }

  /** Bit by bit: 8, 4, 2 and 1 stand for x, r, w and d, and sixteen times as much for the second occurrence. */
  lemma GrantBits(s: string)
    requires ValidAccess(s)
    ensures (Grants(s) & 8 == 8 <==> Count(s, 'x') >= 1) && (Grants(s) & 128 == 128 <==> Count(s, 'x') >= 2)
    ensures (Grants(s) & 4 == 4 <==> Count(s, 'r') >= 1) && (Grants(s) & 64 == 64 <==> Count(s, 'r') >= 2)
    ensures (Grants(s) & 2 == 2 <==> Count(s, 'w') >= 1) && (Grants(s) & 32 == 32 <==> Count(s, 'w') >= 2)
    ensures (Grants(s) & 1 == 1 <==> Count(s, 'd') >= 1) && (Grants(s) & 16 == 16 <==> Count(s, 'd') >= 2)
    ensures Grants(s) < 256
  {
    NibbleBits(Count(s, 'x'), Count(s, 'r'), Count(s, 'w'), Count(s, 'd'));
  }

  lemma NibbleBits(x: nat, r: nat, w: nat, d: nat)
    ensures var g := Nibbles(x, r, w, d);
            && (g & 8 == 8 <==> x >= 1) && (g & 128 == 128 <==> x >= 2)
            && (g & 4 == 4 <==> r >= 1) && (g & 64 == 64 <==> r >= 2)
            && (g & 2 == 2 <==> w >= 1) && (g & 32 == 32 <==> w >= 2)
            && (g & 1 == 1 <==> d >= 1) && (g & 16 == 16 <==> d >= 2)
            && g < 256
  {
  }

  // ---- permissions of a session

  function PermissionOf(o: Objclass): SessionPermission {
    SessionPermission(o.id, o.name, o.obac, o.rbac, Grants(o.access))
  }

  /** An access string that does not parse leaves access 0. */
  method TransformScopes(src: seq<Objclass>) returns (dst: seq<SessionPermission>)
    ensures |dst| == |src| && forall k :: 0 <= k < |src| ==> dst[k] == PermissionOf(src[k])
    ensures forall k :: 0 <= k < |src| ==>
              && dst[k].id == src[k].id && dst[k].name == src[k].name
              && dst[k].obac == src[k].obac && dst[k].rbac == src[k].rbac
              && (!ValidAccess(src[k].access) ==> dst[k].access == 0)
  {
    dst := [];
    var k := 0;
    while k < |src|
      invariant 0 <= k <= |src| && |dst| == k
      invariant forall j :: 0 <= j < k ==> dst[j] == PermissionOf(src[j])
    {
      var access, _ := ParseAccess(src[k].access);
      dst := dst + [SessionPermission(src[k].id, src[k].name, src[k].obac, src[k].rbac, access)];
      k := k + 1;
    }
  }

  function NotAllowPermission(name: string): SessionPermission {
    SessionPermission(0, name, true, true, 0)
  }

  predicate Can(p: SessionPermission, acc: PermissionAccess) {
    if p.obac || p.rbac then p.access & acc.Value() == acc.Value() else !p.rbac && !p.obac
  }

  /** The first class of that name, if any. */
  function Named(src: seq<Objclass>, name: string): Option<Objclass> {
    if src == [] then None else if src[0].name == name then Some(src[0]) else Named(src[1..], name)
  }

  /** What a user may do with a class, in terms of what the service reported. */
  predicate Allowed(src: seq<Objclass>, name: string, acc: PermissionAccess) {
    match Named(src, name)
    case None => false
    case Some(o) => (!o.obac && !o.rbac) || (ValidAccess(o.access) && acc.Letter() in o.access)
  }

  lemma LetterGrants(s: string, acc: PermissionAccess)
    ensures Grants(s) & acc.Value() == acc.Value() <==> ValidAccess(s) && acc.Letter() in s
  {
    CountIsMultiplicity(s, acc.Letter());
    assert acc.Letter() in s <==> acc.Letter() in multiset(s);
    assert Grants(s) & acc.Value() == acc.Value() <==> ValidAccess(s) && Count(s, acc.Letter()) >= 1 by {
      match acc
      case Create =>
      case Read =>
      case Update =>
      case Delete =>
    }
  }

  /** The permission looked up for a name, as a value. */
  function Lookup(scopes: seq<SessionPermission>, name: string): SessionPermission {
    if scopes == [] then NotAllowPermission(name)
    else if scopes[0].name == name then scopes[0]
    else Lookup(scopes[1..], name)
  }

  lemma DecisionOfClass(o: Objclass, acc: PermissionAccess)
    ensures Can(PermissionOf(o), acc) <==> (!o.obac && !o.rbac) || (ValidAccess(o.access) && acc.Letter() in o.access)
  {
    LetterGrants(o.access, acc);
  }

  lemma RefusedForAll(name: string, acc: PermissionAccess)
    ensures !Can(NotAllowPermission(name), acc)
  {
    match acc
    case Create =>
    case Read =>
    case Update =>
    case Delete =>
  }

  /** Looking up in the permissions is looking up in the report. */
  lemma {:induction false} LookupIsNamed(src: seq<Objclass>, scopes: seq<SessionPermission>, name: string)
    requires |scopes| == |src| && forall k :: 0 <= k < |src| ==> scopes[k] == PermissionOf(src[k])
    ensures Lookup(scopes, name) == match Named(src, name) case None => NotAllowPermission(name) case Some(o) => PermissionOf(o)
  {
    if src != [] && src[0].name != name {
      LookupIsNamed(src[1..], scopes[1..], name);
    }
  }

  /** From access string to decision: an operation is allowed iff the class is present and either
      no access model is on or its string is valid and holds the letter. */
  lemma DecisionMatchesReport(src: seq<Objclass>, scopes: seq<SessionPermission>, name: string, acc: PermissionAccess)
    requires |scopes| == |src| && forall k :: 0 <= k < |src| ==> scopes[k] == PermissionOf(src[k])
    ensures Can(Lookup(scopes, name), acc) <==> Allowed(src, name, acc)
  {
    LookupIsNamed(src, scopes, name);
    match Named(src, name)
    case None => RefusedForAll(name, acc);
    case Some(o) => DecisionOfClass(o, acc);
  }

  // ---- administrative permissions

  /** The operation an administrative permission grants, if it grants one. */
  function AdminOf(id: string): Option<PermissionAccess> {
    if id == "add" then Some(Create)
    else if id == "read" then Some(Read)
    else if id == "write" then Some(Update)
    else if id == "delete" then Some(Delete)
    else None
  }

  function Admins(ids: seq<string>): seq<PermissionAccess> {
    if ids == [] then []
    else Admins(ids[..|ids| - 1]) + match AdminOf(ids[|ids| - 1]) case Some(a) => [a] case None => []
  }

  /** The slice is made with as many zero values as there are permissions and then appended to;
      the zero value is Create. */
  function AdminPermissions(ids: seq<string>): seq<PermissionAccess> {
    seq(|ids|, k => Create) + Admins(ids)
  }

  method GatherAdminPermissions(ids: seq<string>) returns (admin: seq<PermissionAccess>)
    ensures admin == AdminPermissions(ids)
  {
    admin := [];
    if |ids| > 0 {
      admin := seq(|ids|, k => Create);
      var k := 0;
      while k < |ids|
        invariant 0 <= k <= |ids|
        invariant admin == seq(|ids|, k => Create) + Admins(ids[..k])
      {
        assert ids[..k + 1][..|ids[..k + 1]| - 1] == ids[..k];
        match ids[k] {
          case "add" => admin := admin + [Create];
          case "read" => admin := admin + [Read];
          case "write" => admin := admin + [Update];
          case "delete" => admin := admin + [Delete];
          case _ =>
        }
        k := k + 1;
      }
      assert ids[..k] == ids;
    }
  }

  lemma {:induction false} AdminsMember(ids: seq<string>, acc: PermissionAccess)
    ensures acc in Admins(ids) <==> exists k :: 0 <= k < |ids| && AdminOf(ids[k]) == Some(acc)
  {
    if ids != [] {
      AdminsMember(ids[..|ids| - 1], acc);
      assert forall k :: 0 <= k < |ids| - 1 ==> ids[..|ids| - 1][k] == ids[k];
    }
  }

  predicate UseRbac(admin: seq<PermissionAccess>, acc: PermissionAccess, perm: SessionPermission) {
    perm.rbac && acc !in admin
  }

  /** Role checks are skipped for exactly the operations the user administers, except for creation,
      which any administrative permission at all exempts. */
  lemma RbacSkipped(ids: seq<string>, acc: PermissionAccess, perm: SessionPermission)
    ensures UseRbac(AdminPermissions(ids), acc, perm) <==>
              && perm.rbac
              && if acc == Create then ids == [] else forall k :: 0 <= k < |ids| ==> AdminOf(ids[k]) != Some(acc)
  {
    AdminsMember(ids, acc);
    if ids != [] {
      assert AdminPermissions(ids)[0] == Create;
    }
    assert acc in AdminPermissions(ids) <==> (acc == Create && ids != []) || acc in Admins(ids);
  }

  /** A user who may only read object classes as an administrator escapes the role check on creation. */
  lemma ReaderEscapesCreateCheck(perm: SessionPermission)
    requires perm.rbac
    ensures !UseRbac(AdminPermissions(["read"]), Create, perm) && Create !in Admins(["read"])
  {
    AdminsMember(["read"], Create);
    RbacSkipped(["read"], Create, perm);
  }

  // ---- from the report to the checks

  /** The k-th class is the first of that name. */
  predicate IsFirst(src: seq<Objclass>, name: string, k: nat) {
    k < |src| && src[k].name == name && forall j :: 0 <= j < k ==> src[j].name != name
  }

  lemma {:induction false} LookupFirst(src: seq<Objclass>, scopes: seq<SessionPermission>, name: string, k: nat)
    requires |scopes| == |src| && forall j :: 0 <= j < |src| ==> scopes[j] == PermissionOf(src[j])
    requires IsFirst(src, name, k)
    ensures var p, o := Lookup(scopes, name), src[k];
            && p.id == o.id && p.name == o.name && p.obac == o.obac && p.rbac == o.rbac && p == PermissionOf(o)
  {
    if k > 0 {
      LookupFirst(src[1..], scopes[1..], name, k - 1);
    }
  }

  lemma {:induction false} LookupAbsent(src: seq<Objclass>, scopes: seq<SessionPermission>, name: string)
    requires |scopes| == |src| && forall j :: 0 <= j < |src| ==> scopes[j] == PermissionOf(src[j])
    requires forall j :: 0 <= j < |src| ==> src[j].name != name
    ensures Lookup(scopes, name) == SessionPermission(0, name, true, true, 0)
  {
    if src != [] {
      LookupAbsent(src[1..], scopes[1..], name);
    }
  }

  /** For the first class of a name: without an access model everything is allowed; with one, 'x' creates, 'r' reads,
      'w' updates and 'd' deletes, provided the whole string is valid. */
  lemma LettersDecide(src: seq<Objclass>, scopes: seq<SessionPermission>, name: string, k: nat, acc: PermissionAccess)
    requires |scopes| == |src| && forall j :: 0 <= j < |src| ==> scopes[j] == PermissionOf(src[j])
    requires IsFirst(src, name, k)
    ensures !src[k].obac && !src[k].rbac ==> Can(Lookup(scopes, name), acc)
    ensures src[k].obac || src[k].rbac ==>
              && (acc.Create? ==> (Can(Lookup(scopes, name), acc) <==> ValidAccess(src[k].access) && 'x' in src[k].access))
              && (acc.Read? ==> (Can(Lookup(scopes, name), acc) <==> ValidAccess(src[k].access) && 'r' in src[k].access))
              && (acc.Update? ==> (Can(Lookup(scopes, name), acc) <==> ValidAccess(src[k].access) && 'w' in src[k].access))
              && (acc.Delete? ==> (Can(Lookup(scopes, name), acc) <==> ValidAccess(src[k].access) && 'd' in src[k].access))
  {
    LookupFirst(src, scopes, name, k);
    DecisionOfClass(src[k], acc);
  }

  /** Whether the role check on creation, reading, updating or deleting is skipped, by the permissions' names. */
  lemma SkippedByName(ids: seq<string>, perm: SessionPermission)
    ensures UseRbac(AdminPermissions(ids), Create, perm) <==> perm.rbac && ids == []
    ensures UseRbac(AdminPermissions(ids), Read, perm) <==> perm.rbac && "read" !in ids
    ensures UseRbac(AdminPermissions(ids), Update, perm) <==> perm.rbac && "write" !in ids
    ensures UseRbac(AdminPermissions(ids), Delete, perm) <==> perm.rbac && "delete" !in ids
  {
    RbacSkipped(ids, Create, perm);
    RbacSkipped(ids, Read, perm);
    RbacSkipped(ids, Update, perm);
    RbacSkipped(ids, Delete, perm);
  }

  /** From the report to the role check: it applies if and only if the operation is not administered and the class,
      the first of its name, is reported with role checks, or there is no such class. */
  lemma RoleCheckMatchesReport(src: seq<Objclass>, scopes: seq<SessionPermission>, ids: seq<string>, name: string, k: nat)
    requires |scopes| == |src| && forall j :: 0 <= j < |src| ==> scopes[j] == PermissionOf(src[j])
    requires IsFirst(src, name, k) || forall j :: 0 <= j < |src| ==> src[j].name != name
    ensures var checked := !IsFirst(src, name, k) || src[k].rbac;
            var p := Lookup(scopes, name);
            && (UseRbac(AdminPermissions(ids), Create, p) <==> ids == [] && checked)
            && (UseRbac(AdminPermissions(ids), Read, p) <==> "read" !in ids && checked)
            && (UseRbac(AdminPermissions(ids), Update, p) <==> "write" !in ids && checked)
            && (UseRbac(AdminPermissions(ids), Delete, p) <==> "delete" !in ids && checked)
  {
    SkippedByName(ids, Lookup(scopes, name));
    if IsFirst(src, name, k) {
      LookupFirst(src, scopes, name, k);
    } else {
      LookupAbsent(src, scopes, name);
    }
  }

  function NamesOf(scopes: seq<SessionPermission>): set<string> {
    set k | 0 <= k < |scopes| :: scopes[k].name
  }

  class Session {
    var scopes: seq<SessionPermission>
    var adminPermissions: seq<PermissionAccess>
    var validLicense: seq<string>

    constructor (objclasses: seq<Objclass>, permissions: seq<string>, licenses: seq<string>)
      ensures |scopes| == |objclasses| && forall k :: 0 <= k < |objclasses| ==> scopes[k] == PermissionOf(objclasses[k])
      ensures adminPermissions == AdminPermissions(permissions) && validLicense == licenses
    {
      var s := TransformScopes(objclasses);
      var a := GatherAdminPermissions(permissions);
      scopes, adminPermissions, validLicense := s, a, licenses;
    }

    method GetPermission(name: string) returns (p: SessionPermission)
      ensures p == Lookup(scopes, name)
      ensures (forall k :: 0 <= k < |scopes| ==> scopes[k].name != name) ==> p == SessionPermission(0, name, true, true, 0)
      ensures forall k :: 0 <= k < |scopes| && scopes[k].name == name && name !in NamesOf(scopes[..k]) ==> p == scopes[k]
    {
      var k := 0;
      while k < |scopes|
        invariant 0 <= k <= |scopes| && forall j :: 0 <= j < k ==> scopes[j].name != name
        invariant Lookup(scopes, name) == Lookup(scopes[k..], name)
      {
        if scopes[k].name == name {
          assert forall j :: k < j <= |scopes| ==> scopes[..j][k] == scopes[k] && scopes[k].name in NamesOf(scopes[..j]);
          return scopes[k];
        }
        assert scopes[k..][1..] == scopes[k + 1..];
        k := k + 1;
      }
      p := NotAllowPermission(name);
    }

    method UseRBAC(acc: PermissionAccess, perm: SessionPermission) returns (b: bool)
      ensures b == UseRbac(adminPermissions, acc, perm)
    {
      if !perm.rbac {
        return false;
      }
      var k := 0;
      while k < |adminPermissions|
        invariant 0 <= k <= |adminPermissions| && acc !in adminPermissions[..k]
      {
        if adminPermissions[k] == acc {
          return false;
        }
        k := k + 1;
      }
      b := perm.rbac;
    }

    method HasLicense(name: string) returns (b: bool)
      ensures b <==> name in validLicense
    {
      var k := 0;
      while k < |validLicense|
        invariant 0 <= k <= |validLicense| && name !in validLicense[..k]
      {
        if validLicense[k] == name {
          return true;
        }
        k := k + 1;
      }
      b := false;
    }
  }
}
