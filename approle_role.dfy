/** The `vault_approle_auth_backend_role` resource: a role of an AppRole
    auth backend, stored at `auth/<backend>/role/<role>`. */
module AppRoleRole {
  import opened Values
  import opened GoStrings
  import opened Resource

  /** Why a path is not the path of an AppRole role. */
  datatype PathError = NoRoleFound | NoBackendFound | UnexpectedMatchCount(count: int, part: string)

  /** The errors the resource's callbacks return, one per `fmt.Errorf`. */
  datatype RoleError =
    | ErrWritingRole(path: string, cause: ApiError)
    | ErrWritingRoleId(path: string, cause: ApiError)
    | InvalidPath(path: string, reason: PathError)
    | ErrReadingRole(path: string, cause: ApiError)
    | NotANumber(field: string, raw: Value)
    | ErrReadingRoleId(path: string, cause: ApiError)
    | ErrUpdatingRole(path: string, cause: ApiError)
    | ErrUpdatingRoleId(path: string, cause: ApiError)
    | ErrDeletingRole(path: string)
    | ErrCheckingExists(path: string, cause: ApiError)

  // ---------------------------------------------------------------------
  // Paths
  // ---------------------------------------------------------------------

  /** `approleAuthBackendRolePath`: both parts lose their surrounding slashes. */
  function RolePath(backend: string, role: string): (path: string)
    ensures var b, r := Trim(backend, '/'), Trim(role, '/');
            && |path| == 11 + |b| + |r|
            && path[..5] == "auth/" && path[5..5 + |b|] == b
            && path[5 + |b|..11 + |b|] == "/role/" && path[11 + |b|..] == r
  {
    var b, r := Trim(backend, '/'), Trim(role, '/');
    ConcatSlices("auth/", b, "/role/", r);
    "auth/" + b + "/role/" + r
  }

  /** Each of four concatenated strings is the slice of the whole at its offset. */
  lemma ConcatSlices(w: string, x: string, y: string, z: string)
    ensures var p := w + x + y + z;
            && |p| == |w| + |x| + |y| + |z|
            && p[..|w|] == w && p[|w|..|w| + |x|] == x
            && p[|w| + |x|..|w| + |x| + |y|] == y && p[|w| + |x| + |y|..] == z
  {
  }

  /** The `backend` attribute's StateFunc stores `Trim(backend, "/")`; storing it
      again changes nothing, and the role path built from the stored value is
      the path built from the configured one. */
  lemma StoredBackendIsStable(backend: string, role: string)
    ensures Trim(Trim(backend, '/'), '/') == Trim(backend, '/')
    ensures RolePath(Trim(backend, '/'), role) == RolePath(backend, role)
  {
    TrimIdempotent(backend, '/');
  }

  /** `i` is where a "/role/" of `path` can sit in a match of
      `^auth/(.+)/role/.+$`: after at least one backend character and
      before at least one role character. */
  predicate IsRoleSep(path: string, i: int) {
    6 <= i && i + 6 < |path| && path[i..i + 6] == "/role/"
  }

  /** Both regexes, `^auth/(.+)/role/.+$` and `^auth/.+/role/(.+)$`, match
      exactly these paths: RE2's `.` matches anything but a newline, and `$`
      without the multi-line flag is the end of the text. */
  predicate MatchesRoleRegex(path: string)
    ensures MatchesRoleRegex(path) ==> |path| >= 13 && path[..5] == "auth/"
  {
    && HasPrefix(path, "auth/")
    && '\n' !in path
    && exists i | 0 <= i < |path| :: IsRoleSep(path, i)
  }

  /** The last separator position at or below `hi`. */
  function LastRoleSep(path: string, hi: int): (r: Option<nat>)
    ensures r.Some? ==> IsRoleSep(path, r.value) && r.value <= hi
    ensures r.Some? ==> forall j :: r.value < j <= hi ==> !IsRoleSep(path, j)
    ensures r.None? ==> forall j :: j <= hi ==> !IsRoleSep(path, j)
    decreases hi
  {
    if hi < 6 then None
    else if IsRoleSep(path, hi) then Some(hi)
    else LastRoleSep(path, hi - 1)
  }

  /** Where the regex engine splits a matching path: the leading `.+` is
      greedy and Go's regexp prefers leftmost-first (Perl) submatches, so
      the split is the last separator position. */
  function RoleSplit(path: string): (r: Option<nat>)
    ensures r.Some? <==> MatchesRoleRegex(path)
    ensures r.Some? ==> IsRoleSep(path, r.value) && forall j :: r.value < j ==> !IsRoleSep(path, j)
  {
    if HasPrefix(path, "auth/") && '\n' !in path then LastRoleSep(path, |path|) else None
  }

  /** `FindStringSubmatch` for the backend regex: nil when there is no
      match, else the whole match and the one group. */
  function BackendSubmatch(path: string): (res: seq<string>)
    ensures |res| == if MatchesRoleRegex(path) then 2 else 0
  {
    match RoleSplit(path)
    case None => []
    case Some(i) => [path, path[5..i]]
  }

  /** `FindStringSubmatch` for the role-name regex. */
  function NameSubmatch(path: string): (res: seq<string>)
    ensures |res| == if MatchesRoleRegex(path) then 2 else 0
  {
    match RoleSplit(path)
    case None => []
    case Some(i) => [path, path[i + 6..]]
  }

  /** `approleAuthBackendRoleBackendFromPath`. It fails exactly when the
      regex does not match, and then always with "no backend found": the
      "unexpected number of matches" branch cannot be taken. */
  function BackendFromPath(path: string): (r: Result<string, PathError>)
    ensures r.Failure? <==> !MatchesRoleRegex(path)
    ensures r.Failure? ==> r.error == NoBackendFound
  {
    if !MatchesRoleRegex(path) then Failure(NoBackendFound)
    else
      var res := BackendSubmatch(path);
      if |res| != 2 then Failure(UnexpectedMatchCount(|res|, "backend"))
      else Success(res[1])
  }

  /** `approleAuthBackendRoleNameFromPath`. It fails exactly when the regex
      does not match, and then always with "no role found". */
  function NameFromPath(path: string): (r: Result<string, PathError>)
    ensures r.Failure? <==> !MatchesRoleRegex(path)
    ensures r.Failure? ==> r.error == NoRoleFound
  {
    if !MatchesRoleRegex(path) then Failure(NoRoleFound)
    else
      var res := NameSubmatch(path);
      if |res| != 2 then Failure(UnexpectedMatchCount(|res|, "role"))
      else Success(res[1])
  }

  /** What the two parsers take out of a path puts it back together: the
      backend and the role are non-empty, hold no newline, and no "/role/"
      that could split the path starts after the backend: the split is at
      the last one. */
  lemma ParsedPathReassembles(path: string)
    requires MatchesRoleRegex(path)
    ensures BackendFromPath(path).Success? && NameFromPath(path).Success?
    ensures var b, n := BackendFromPath(path).value, NameFromPath(path).value;
            && path == "auth/" + b + "/role/" + n
            && b != "" && n != ""
            && '\n' !in b && '\n' !in n
            && forall j :: 5 + |b| < j ==> !IsRoleSep(path, j)
  {
    var i := RoleSplit(path).value;
    var b, n := path[5..i], path[i + 6..];
    assert path == path[..5] + b + path[i..i + 6] + n;
    assert forall k | 0 <= k < |b| :: b[k] == path[5 + k];
    assert forall k | 0 <= k < |n| :: n[k] == path[i + 6 + k];
  }

  /** The round trip: when the trimmed backend B and role R are non-empty,
      hold no newline and R holds no '/', the parsers give B and R back from
      the role path. */
  lemma RolePathRoundTrip(backend: string, role: string)
    requires Trim(backend, '/') != "" && Trim(role, '/') != ""
    requires '\n' !in Trim(backend, '/') && '\n' !in Trim(role, '/')
    requires '/' !in Trim(role, '/')
    ensures BackendFromPath(RolePath(backend, role)) == Success(Trim(backend, '/'))
    ensures NameFromPath(RolePath(backend, role)) == Success(Trim(role, '/'))
  {
    JoinedPathParses(Trim(backend, '/'), Trim(role, '/'));
  }

  /** The parsers split "auth/" + b + "/role/" + r back into `b` and `r`
      when both are non-empty, hold no newline and `r` holds no '/'. */
  lemma JoinedPathParses(b: string, r: string)
    requires b != "" && r != ""
    requires '\n' !in b && '\n' !in r && '/' !in r
    ensures BackendFromPath("auth/" + b + "/role/" + r) == Success(b)
    ensures NameFromPath("auth/" + b + "/role/" + r) == Success(r)
  {
    var p := "auth/" + b + "/role/" + r;
    var i := 5 + |b|;
    assert p[..5] == "auth/";
    assert p[5..i] == b;
    assert p[i..i + 6] == "/role/";
    assert p[i + 6..] == r;
    assert IsRoleSep(p, i);
    assert '\n' !in p by {
      forall k | 0 <= k < |p| ensures p[k] != '\n' {
        if k < 5 {
        } else if k < i {
          assert p[k] == b[k - 5];
        } else if k < i + 6 {
        } else {
          assert p[k] == r[k - i - 6];
        }
      }
    }
    assert MatchesRoleRegex(p);
    NoSeparatorAfter(p, i, r);
    assert RoleSplit(p) == Some(i);
  }

  /** No "/role/" starts inside a tail without '/'. */
  lemma NoSeparatorAfter(p: string, i: int, r: string)
    requires 0 <= i <= |p| - 6 && p[i + 6..] == r && '/' !in r
    ensures forall j :: i < j ==> !IsRoleSep(p, j)
  {
    forall j | i < j
      ensures !IsRoleSep(p, j)
    {
      if 6 <= j && j + 6 < |p| {
        assert p[j + 5] == r[j + 5 - (i + 6)];
        assert p[j..j + 6][5] != '/';
      }
    }
  }

  /** A path that does not start with "auth/" names neither a backend nor
      a role. */
  lemma NoBackendWithoutAuthPrefix(p: string)
    requires !HasPrefix(p, "auth/")
    ensures BackendFromPath(p) == Failure(NoBackendFound)
    ensures NameFromPath(p) == Failure(NoRoleFound)
  {
  }

  /** A path whose only "/role/" sits right after "auth/" (an empty backend)
      or at the very end (an empty role) names no role. */
  lemma NoRoleWithEmptySegment()
    ensures NameFromPath("auth//role/web") == Failure(NoRoleFound)
    ensures NameFromPath("auth/approle/role/") == Failure(NoRoleFound)
  {
    NoSeparatorStartsWithin("auth//role/web");
    NoSeparatorStartsWithin("auth/approle/role/");
  }

  /** An empty first segment alone does not stop a match: a later "/role/"
      takes over, and the first one becomes part of the backend. Likewise a
      trailing "/role/" becomes part of the role name. */
  lemma EmptySegmentBeforeLaterSeparator()
    ensures BackendFromPath("auth//role/a/role/b") == Success("/role/a")
    ensures NameFromPath("auth//role/a/role/b") == Success("b")
    ensures NameFromPath("auth/a/role/b/role/") == Success("b/role/")
  {
    var p := "auth//role/a/role/b";
    assert HasPrefix(p, "auth/") && '\n' !in p;
    assert p[12..18] == "/role/";
    assert IsRoleSep(p, 12);
    assert RoleSplit(p).value == 12;
    assert p[5..12] == "/role/a";
    assert p[18..] == "b";
    var q := "auth/a/role/b/role/";
    assert HasPrefix(q, "auth/") && '\n' !in q;
    assert q[6..12] == "/role/";
    assert IsRoleSep(q, 6);
    forall j | 6 < j
      ensures !IsRoleSep(q, j)
    {
      if 6 < j && j + 6 < |q| {
        assert q[j..j + 6][0] == q[j] && q[j..j + 6][1] == q[j + 1];
      }
    }
    assert RoleSplit(q).value == 6;
    assert q[12..] == "b/role/";
  }

  /** No "/role/" can start where `p` has no '/'. */
  lemma NoSeparatorStartsWithin(p: string)
    requires forall i | 6 <= i < |p| - 6 :: p[i] != '/'
    ensures !MatchesRoleRegex(p)
  {
    forall i | 0 <= i < |p|
      ensures !IsRoleSep(p, i)
    {
      if 6 <= i && i + 6 < |p| {
        assert p[i..i + 6][0] == p[i];
      }
    }
  }

  /** A "/role/" inside the role name moves the split: the regexes take the
      last separator, so the backend absorbs the first one. */
  lemma LastSeparatorWins()
    ensures BackendFromPath("auth/approle/role/a/role/b") == Success("approle/role/a")
    ensures NameFromPath("auth/approle/role/a/role/b") == Success("b")
  {
    var p := "auth/approle/role/a/role/b";
    assert HasPrefix(p, "auth/");
    assert '\n' !in p;
    assert p[19..25] == "/role/";
    assert IsRoleSep(p, 19);
    forall j | 19 < j
      ensures !IsRoleSep(p, j)
    {
    }
    assert RoleSplit(p).value == 19;
    assert p[5..19] == "approle/role/a" by {
      assert p[..19] == "auth/approle/role/a";
    }
    assert p[25..] == "b";
  }

  // ---------------------------------------------------------------------
  // Bound CIDR list
  // ---------------------------------------------------------------------

  /** The `for ... append(out, v.(string))` loops that turn a
      `[]interface{}` of strings into a `[]string`. */
  method StringsOf(items: seq<Value>) returns (strs: seq<string>)
    requires AllStrings(items)
    ensures Strs(strs) == items
  {
    strs := [];
    for k := 0 to |items|
      invariant Strs(strs) == items[..k]
    {
      assert items[..k + 1] == items[..k] + [items[k]];
      strs := strs + [items[k].s];
    }
    assert items[..|items|] == items;
  }

  /** The CIDRs a read response's `bound_cidr_list` stands for: a non-empty
      string is split at commas (older Vault), a list gives its strings in
      order, and the empty string or any other value gives none. */
  function CidrsOf(raw: Value): (cidrs: seq<string>)
    requires raw.VList? ==> AllStrings(raw.items)
    ensures raw.VStr? && raw.s != "" ==>
              Join(cidrs, ',') == raw.s && forall k :: 0 <= k < |cidrs| ==> ',' !in cidrs[k]
    ensures raw.VList? ==> Strs(cidrs) == raw.items
    ensures !raw.VList? && !(raw.VStr? && raw.s != "") ==> cidrs == []
  {
    match raw
    case VStr(s) => if s == "" then [] else JoinSplit(s, ','); Split(s, ',')
    case VList(items) => Unwrap(items)
    case _ => []
  }

  /** The type switch on `bound_cidr_list` in the read callback. */
  method DecodeCidrs(raw: Value) returns (cidrs: seq<string>)
    requires raw.VList? ==> AllStrings(raw.items)
    ensures cidrs == CidrsOf(raw)
  {
    cidrs := [];
    match raw {
      case VStr(value) =>
        if value != "" {
          cidrs := Split(value, ',');
        }
      case VList(items) =>
        cidrs := StringsOf(items);
        StrsInjective(cidrs, CidrsOf(raw));
      case _ =>
    }
  }

  /** Joining CIDRs with commas on write and decoding the string on read
      gives the CIDRs back, provided none holds a comma and the list is not
      the single empty string. */
  lemma {:induction false} CidrsRoundTrip(xs: seq<string>)
    requires forall k :: 0 <= k < |xs| ==> ',' !in xs[k]
    requires xs != [""]
    ensures CidrsOf(VStr(Join(xs, ','))) == xs
  {
    if |xs| >= 1 {
      SplitJoin(xs, ',');
      if |xs| >= 2 {
        JoinCons(xs, ',');
      }
    }
  }

  /** The exception: a set holding only "" is written as "" and read back
      as no CIDRs at all. */
  lemma EmptyCidrIsLost()
    ensures Join([""], ',') == "" && CidrsOf(VStr(Join([""], ','))) == []
  {
  }

  // ---------------------------------------------------------------------
  // Request payloads
  // ---------------------------------------------------------------------

  /** The role's configuration as the callbacks read it from `d`: a field
      `GetOk` reports as unset is None; the two sets are their `List()`. */
  datatype RoleConfig = RoleConfig(
    backend: string,
    roleName: string,
    roleId: Option<string>,
    bindSecretId: Option<bool>,
    boundCidrList: seq<Value>,
    policies: seq<Value>,
    secretIdNumUses: Option<int>,
    secretIdTtl: Option<int>,
    tokenNumUses: Option<int>,
    tokenTtl: Option<int>,
    tokenMaxTtl: Option<int>,
    period: Option<int>)

  /** The sets hold strings, as the schema declares. */
  predicate ConfigWellTyped(cfg: RoleConfig) {
    AllStrings(cfg.policies) && AllStrings(cfg.boundCidrList)
  }

  /** The nine keys a role write can carry. */
  const RoleFields: set<string> := {
    "policies", "bound_cidr_list", "bind_secret_id", "secret_id_num_uses",
    "secret_id_ttl", "token_num_uses", "token_ttl", "token_max_ttl", "period"
  }

  /** `data` holds `key` exactly when `v` is set, and then holds `v`. */
  predicate OptionalEntry(data: map<string, Value>, key: string, v: Option<Value>) {
    (key in data <==> v.Some?) && (v.Some? ==> data[key] == v.value)
  }

  function IntEntry(o: Option<int>): Option<Value> {
    if o.Some? then Some(VInt(o.value)) else None
  }

  /** The create payload: a key per field that is set, `policies` and
      `bound_cidr_list` only when their sets are non-empty, the CIDRs
      comma-joined. */
  predicate IsCreatePayload(cfg: RoleConfig, data: map<string, Value>)
    requires ConfigWellTyped(cfg)
  {
    && data.Keys <= RoleFields
    && OptionalEntry(data, "period", IntEntry(cfg.period))
    && OptionalEntry(data, "policies",
                     if |cfg.policies| > 0 then Some(VList(cfg.policies)) else None)
    && OptionalEntry(data, "bound_cidr_list",
                     if |cfg.boundCidrList| > 0
                     then Some(VStr(Join(Unwrap(cfg.boundCidrList), ','))) else None)
    && OptionalEntry(data, "bind_secret_id",
                     if cfg.bindSecretId.Some? then Some(VBool(cfg.bindSecretId.value)) else None)
    && OptionalEntry(data, "secret_id_num_uses", IntEntry(cfg.secretIdNumUses))
    && OptionalEntry(data, "secret_id_ttl", IntEntry(cfg.secretIdTtl))
    && OptionalEntry(data, "token_num_uses", IntEntry(cfg.tokenNumUses))
    && OptionalEntry(data, "token_ttl", IntEntry(cfg.tokenTtl))
    && OptionalEntry(data, "token_max_ttl", IntEntry(cfg.tokenMaxTtl))
  }

  /** A payload written key by key: each entry that is set, in order, is
      stored under its key (a later entry overwrites an earlier one). */
  function Collect(es: seq<(string, Option<Value>)>): map<string, Value> {
    if es == [] then map[]
    else
      var m := Collect(es[..|es| - 1]);
      var e := es[|es| - 1];
      if e.1.Some? then m[e.0 := e.1.value] else m
  }

  /** No key occurs twice among the entries. */
  predicate DistinctKeys(es: seq<(string, Option<Value>)>) {
    forall i, j :: 0 <= i < j < |es| ==> es[i].0 != es[j].0
  }

  /** With distinct keys, each entry's key is present in the payload exactly
      when the entry is set, and then holds the entry's value. */
  lemma {:induction false} CollectEntry(es: seq<(string, Option<Value>)>, i: int)
    requires DistinctKeys(es) && 0 <= i < |es|
    ensures OptionalEntry(Collect(es), es[i].0, es[i].1)
  {
    var init := es[..|es| - 1];
    if i < |es| - 1 {
      assert init[i] == es[i];
      CollectEntry(init, i);
    } else {
      CollectAbsent(init, es[i].0);
    }
  }

  /** Collecting one more entry adds it to the payload collected so far. */
  lemma CollectStep(es: seq<(string, Option<Value>)>, k: int)
    requires 0 <= k < |es|
    ensures Collect(es[..k + 1])
            == if es[k].1.Some? then Collect(es[..k])[es[k].0 := es[k].1.value] else Collect(es[..k])
  {
    assert es[..k + 1][..k] == es[..k];
  }

  /** A key no entry names is absent from the payload. */
  lemma {:induction false} CollectAbsent(es: seq<(string, Option<Value>)>, k: string)
    requires forall i :: 0 <= i < |es| ==> es[i].0 != k
    ensures k !in Collect(es)
  {
    if es != [] {
      CollectAbsent(es[..|es| - 1], k);
    }
  }

  /** Every key of the payload comes from some entry. */
  lemma {:induction false} CollectKeys(es: seq<(string, Option<Value>)>, k: string)
    requires k in Collect(es)
    ensures exists i :: 0 <= i < |es| && es[i].0 == k
  {
    if es[|es| - 1].0 != k {
      var init := es[..|es| - 1];
      CollectKeys(init, k);
      var i :| 0 <= i < |init| && init[i].0 == k;
      assert es[i] == init[i];
    }
  }

  /** The create callback's candidate entries, in the order it tests them. */
  function CreateEntries(cfg: RoleConfig): (es: seq<(string, Option<Value>)>)
    requires ConfigWellTyped(cfg)
  {
    [("period", IntEntry(cfg.period)),
     ("policies", if |cfg.policies| > 0 then Some(VList(cfg.policies)) else None),
     ("bound_cidr_list", if |cfg.boundCidrList| > 0
                         then Some(VStr(Join(Unwrap(cfg.boundCidrList), ','))) else None),
     ("bind_secret_id", if cfg.bindSecretId.Some? then Some(VBool(cfg.bindSecretId.value)) else None),
     ("secret_id_num_uses", IntEntry(cfg.secretIdNumUses)),
     ("secret_id_ttl", IntEntry(cfg.secretIdTtl)),
     ("token_num_uses", IntEntry(cfg.tokenNumUses)),
     ("token_ttl", IntEntry(cfg.tokenTtl)),
     ("token_max_ttl", IntEntry(cfg.tokenMaxTtl))]
  }

  /** The nine keys differ. */
  lemma CreateEntriesDistinct(cfg: RoleConfig)
    requires ConfigWellTyped(cfg)
    ensures DistinctKeys(CreateEntries(cfg))
  {
    var es := CreateEntries(cfg);
    assert es[5].0[0] != es[8].0[0];
    assert es[3].0[0] != es[6].0[0];
  }

  /** Collecting the create entries gives exactly the create payload. */
  lemma CreateEntriesPayload(cfg: RoleConfig)
    requires ConfigWellTyped(cfg)
    ensures IsCreatePayload(cfg, Collect(CreateEntries(cfg)))
  {
    var es := CreateEntries(cfg);
    CreateEntriesDistinct(cfg);
    CollectEntry(es, 0);
    CollectEntry(es, 1);
    CollectEntry(es, 2);
    CollectEntry(es, 3);
    CollectEntry(es, 4);
    CollectEntry(es, 5);
    CollectEntry(es, 6);
    CollectEntry(es, 7);
    CollectEntry(es, 8);
    forall k | k in Collect(es) ensures k in RoleFields {
      CollectKeys(es, k);
      var i :| 0 <= i < |es| && es[i].0 == k;
    }
  }

  /** `if ok { m[key] = v }` for entry `k` of a payload collected in order. */
  method PutIfSet(ghost es: seq<(string, Option<Value>)>, ghost k: int,
                  m: map<string, Value>, key: string, v: Option<Value>) returns (r: map<string, Value>)
    requires 0 <= k < |es| && es[k] == (key, v) && m == Collect(es[..k])
    ensures r == Collect(es[..k + 1])
  {
    CollectStep(es, k);
    r := m;
    if v.Some? {
      r := r[key := v.value];
    }
  }

  /** Builds the create payload key by key, in the order of the source. */
  method CreatePayload(cfg: RoleConfig) returns (data: map<string, Value>)
    requires ConfigWellTyped(cfg)
    ensures data == Collect(CreateEntries(cfg))
  {
    var policies := StringsOf(cfg.policies);
    var cidrs := StringsOf(cfg.boundCidrList);
    StrsInjective(cidrs, Unwrap(cfg.boundCidrList));
    ghost var es := CreateEntries(cfg);

    data := map[];
    assert es[..0] == [];
    data := PutIfSet(es, 0, data, "period", IntEntry(cfg.period));
    data := PutIfSet(es, 1, data, "policies", if |policies| > 0 then Some(VList(Strs(policies))) else None);
    data := PutIfSet(es, 2, data, "bound_cidr_list", if |cidrs| > 0 then Some(VStr(Join(cidrs, ','))) else None);
    data := PutIfSet(es, 3, data, "bind_secret_id", if cfg.bindSecretId.Some? then Some(VBool(cfg.bindSecretId.value)) else None);
    data := PutIfSet(es, 4, data, "secret_id_num_uses", IntEntry(cfg.secretIdNumUses));
    data := PutIfSet(es, 5, data, "secret_id_ttl", IntEntry(cfg.secretIdTtl));
    data := PutIfSet(es, 6, data, "token_num_uses", IntEntry(cfg.tokenNumUses));
    data := PutIfSet(es, 7, data, "token_ttl", IntEntry(cfg.tokenTtl));
    data := PutIfSet(es, 8, data, "token_max_ttl", IntEntry(cfg.tokenMaxTtl));
    assert es[..9] == es;
  }

  /** The update payload: all nine keys, unset fields at their Go zero value
      and the CIDRs comma-joined ("" for an empty set). */
  predicate IsUpdatePayload(cfg: RoleConfig, data: map<string, Value>)
    requires ConfigWellTyped(cfg)
  {
    && data.Keys == RoleFields
    && data["policies"] == VList(cfg.policies)
    && data["bound_cidr_list"] == VStr(Join(Unwrap(cfg.boundCidrList), ','))
    && data["bind_secret_id"] == VBool(cfg.bindSecretId.GetOr(false))
    && data["secret_id_num_uses"] == VInt(cfg.secretIdNumUses.GetOr(0))
    && data["secret_id_ttl"] == VInt(cfg.secretIdTtl.GetOr(0))
    && data["token_num_uses"] == VInt(cfg.tokenNumUses.GetOr(0))
    && data["token_ttl"] == VInt(cfg.tokenTtl.GetOr(0))
    && data["token_max_ttl"] == VInt(cfg.tokenMaxTtl.GetOr(0))
    && data["period"] == VInt(cfg.period.GetOr(0))
  }

  /** The update payload as a value. */
  function UpdateData(cfg: RoleConfig): (data: map<string, Value>)
    requires ConfigWellTyped(cfg)
    ensures IsUpdatePayload(cfg, data)
  {
    map[
      "policies" := VList(cfg.policies),
      "bound_cidr_list" := VStr(Join(Unwrap(cfg.boundCidrList), ',')),
      "bind_secret_id" := VBool(cfg.bindSecretId.GetOr(false)),
      "secret_id_num_uses" := VInt(cfg.secretIdNumUses.GetOr(0)),
      "secret_id_ttl" := VInt(cfg.secretIdTtl.GetOr(0)),
      "token_num_uses" := VInt(cfg.tokenNumUses.GetOr(0)),
      "token_ttl" := VInt(cfg.tokenTtl.GetOr(0)),
      "token_max_ttl" := VInt(cfg.tokenMaxTtl.GetOr(0)),
      "period" := VInt(cfg.period.GetOr(0))
    ]
  }

  /** Builds the update payload, converting the sets with append loops. */
  method UpdatePayload(cfg: RoleConfig) returns (data: map<string, Value>)
    requires ConfigWellTyped(cfg)
    ensures data == UpdateData(cfg)
  {
    var policies := StringsOf(cfg.policies);
    var cidrs := StringsOf(cfg.boundCidrList);
    StrsInjective(cidrs, Unwrap(cfg.boundCidrList));
    data := map[
      "policies" := VList(Strs(policies)),
      "bound_cidr_list" := VStr(Join(cidrs, ',')),
      "bind_secret_id" := VBool(cfg.bindSecretId.GetOr(false)),
      "secret_id_num_uses" := VInt(cfg.secretIdNumUses.GetOr(0)),
      "secret_id_ttl" := VInt(cfg.secretIdTtl.GetOr(0)),
      "token_num_uses" := VInt(cfg.tokenNumUses.GetOr(0)),
      "token_ttl" := VInt(cfg.tokenTtl.GetOr(0)),
      "token_max_ttl" := VInt(cfg.tokenMaxTtl.GetOr(0)),
      "period" := VInt(cfg.period.GetOr(0))
    ];
  }

  /** Whatever CIDR set an update writes, a read of that payload gives the
      same CIDRs back (the empty set included), under the conditions of
      CidrsRoundTrip. */
  lemma UpdatedCidrsReadBack(cfg: RoleConfig)
    requires ConfigWellTyped(cfg)
    requires forall k :: 0 <= k < |cfg.boundCidrList| ==> ',' !in cfg.boundCidrList[k].s
    requires Unwrap(cfg.boundCidrList) != [""]
    ensures CidrsOf(UpdateData(cfg)["bound_cidr_list"]) == Unwrap(cfg.boundCidrList)
  {
    var xs := Unwrap(cfg.boundCidrList);
    forall k | 0 <= k < |xs| ensures ',' !in xs[k] {
      assert Strs(xs)[k] == cfg.boundCidrList[k];
    }
    CidrsRoundTrip(xs);
  }

  // ---------------------------------------------------------------------
  // Read
  // ---------------------------------------------------------------------

  const MinInt64: int := -0x8000_0000_0000_0000
  const MaxInt64: int := 0x7fff_ffff_ffff_ffff

  predicate IsNumberField(data: map<string, Value>, field: string) {
    Lookup(data, field).VNumber?
  }

  /** A role read response the read callback can take apart without a
      failed type assertion. */
  predicate WellFormedRoleData(data: map<string, Value>) {
    && Lookup(data, "policies").VList? && AllStrings(Lookup(data, "policies").items)
    && (Lookup(data, "bound_cidr_list").VList? ==> AllStrings(Lookup(data, "bound_cidr_list").items))
    && IsNumberField(data, "secret_id_ttl")
    && IsNumberField(data, "secret_id_num_uses")
    && IsNumberField(data, "token_ttl")
    && IsNumberField(data, "token_num_uses")
    && IsNumberField(data, "token_max_ttl")
    && IsNumberField(data, "period")
  }

  /** `resp.Data[field].(json.Number).Int64()`: fails when the number does
      not fit in 64 bits. */
  function Int64Field(data: map<string, Value>, field: string): Result<int, RoleError>
    requires IsNumberField(data, field)
  {
    var n := data[field].n;
    if MinInt64 <= n <= MaxInt64 then Success(n) else Failure(NotANumber(field, data[field]))
  }

  /** The role as a read response describes it. */
  datatype RoleState = RoleState(
    policies: seq<string>,
    cidrs: seq<string>,
    secretIdTtl: int,
    secretIdNumUses: int,
    tokenTtl: int,
    tokenNumUses: int,
    tokenMaxTtl: int,
    period: int,
    bindSecretId: Value)

  /** Decodes a read response; the numbers are checked in the source's
      order and the first that does not fit is the error. */
  function DecodeRole(data: map<string, Value>): (r: Result<RoleState, RoleError>)
    requires WellFormedRoleData(data)
    ensures r.Success? ==> Strs(r.value.policies) == data["policies"].items
    ensures r.Success? ==> r.value.cidrs == CidrsOf(Lookup(data, "bound_cidr_list"))
    ensures r.Success? ==>
              && r.value.secretIdTtl == data["secret_id_ttl"].n
              && r.value.secretIdNumUses == data["secret_id_num_uses"].n
              && r.value.tokenTtl == data["token_ttl"].n
              && r.value.tokenNumUses == data["token_num_uses"].n
              && r.value.tokenMaxTtl == data["token_max_ttl"].n
              && r.value.period == data["period"].n
              && r.value.bindSecretId == Lookup(data, "bind_secret_id")
    ensures r.Failure? ==> r.error.NotANumber?
    ensures r.Success? <==>
              forall f :: f in NumberFields ==> MinInt64 <= Lookup(data, f).n <= MaxInt64
  {
    var secretIdTtl :- Int64Field(data, "secret_id_ttl");
    var secretIdNumUses :- Int64Field(data, "secret_id_num_uses");
    var tokenTtl :- Int64Field(data, "token_ttl");
    var tokenNumUses :- Int64Field(data, "token_num_uses");
    var tokenMaxTtl :- Int64Field(data, "token_max_ttl");
    var period :- Int64Field(data, "period");
    Success(RoleState(
      Unwrap(data["policies"].items), CidrsOf(Lookup(data, "bound_cidr_list")),
      secretIdTtl, secretIdNumUses, tokenTtl, tokenNumUses, tokenMaxTtl, period,
      Lookup(data, "bind_secret_id")))
  }

  const NumberFields: set<string> := {
    "secret_id_ttl", "secret_id_num_uses", "token_ttl", "token_num_uses", "token_max_ttl", "period"
  }

  /** The attributes a successful read stores in state. */
  function RoleAttributes(backend: string, role: string, st: RoleState): map<string, Value> {
    map[
      "backend" := VStr(backend),
      "role_name" := VStr(role),
      "period" := VInt(st.period),
      "policies" := VList(Strs(st.policies)),
      "bound_cidr_list" := VList(Strs(st.cidrs)),
      "secret_id_num_uses" := VInt(st.secretIdNumUses),
      "secret_id_ttl" := VInt(st.secretIdTtl),
      "token_num_uses" := VInt(st.tokenNumUses),
      "token_ttl" := VInt(st.tokenTtl),
      "token_max_ttl" := VInt(st.tokenMaxTtl),
      "bind_secret_id" := st.bindSecretId
    ]
  }

  /** What a callback leaves behind: its error, the resource's id and
      attributes, and the requests it sent. */
  datatype Effect = Effect(err: Option<RoleError>, id: string, attrs: map<string, Value>, sent: seq<Request>)

  /** The read callback on a resource with this id and these attributes,
      given the outcomes of its two reads. */
  function ReadSpec(id: string, attrs: map<string, Value>, read: ReadOutcome, roleIdRead: ReadOutcome): (e: Effect)
    requires read.Found? ==> WellFormedRoleData(read.data)
    ensures e.sent == [] <==> !MatchesRoleRegex(id)
    ensures !MatchesRoleRegex(id) ==> e.err.Some? && e.err.value.InvalidPath? && e.id == id && e.attrs == attrs
    ensures MatchesRoleRegex(id) && read.NotFound? ==> e == Effect(None, "", attrs, [LogicalRead(id)])
    ensures e.id == id || (e.id == "" && read.NotFound?)
    ensures e.attrs != attrs ==>
              && Lookup(e.attrs, "backend").VStr? && Lookup(e.attrs, "role_name").VStr?
              && id == "auth/" + Lookup(e.attrs, "backend").s + "/role/" + Lookup(e.attrs, "role_name").s
  {
    var backend := BackendFromPath(id);
    var role := NameFromPath(id);
    if backend.Failure? then Effect(Some(InvalidPath(id, backend.error)), id, attrs, [])
    else if role.Failure? then
      // both parsers match the same pattern, so this cannot happen
      assert false; Effect(Some(InvalidPath(id, NoRoleFound)), id, attrs, [])
    else
      ParsedPathReassembles(id);
      match read
      case ReadFailed(cause) => Effect(Some(ErrReadingRole(id, cause)), id, attrs, [LogicalRead(id)])
      case NotFound => Effect(None, "", attrs, [LogicalRead(id)])
      case Found(data) =>
        match DecodeRole(data)
        case Failure(err) => Effect(Some(err), id, attrs, [LogicalRead(id)])
        case Success(st) =>
          var stored := attrs + RoleAttributes(backend.value, role.value, st);
          StoredNames(attrs, backend.value, role.value, st,
                      if roleIdRead.Found? then Lookup(roleIdRead.data, "role_id") else VNil);
          var sent := [LogicalRead(id), LogicalRead(id + "/role-id")];
          match roleIdRead
          case ReadFailed(cause) => Effect(Some(ErrReadingRoleId(id, cause)), id, stored, sent)
          case NotFound => Effect(None, id, stored, sent)
          case Found(data2) => Effect(None, id, stored["role_id" := Lookup(data2, "role_id")], sent)
  }

  /** After a successful read the state holds the parsed backend and role
      name, whether or not a RoleID is stored next to them. */
  lemma StoredNames(attrs: map<string, Value>, backend: string, role: string, st: RoleState, roleId: Value)
    ensures var m := attrs + RoleAttributes(backend, role, st);
            && Lookup(m, "backend") == VStr(backend) && Lookup(m, "role_name") == VStr(role)
            && Lookup(m["role_id" := roleId], "backend") == VStr(backend)
            && Lookup(m["role_id" := roleId], "role_name") == VStr(role)
  {
    var ra := RoleAttributes(backend, role, st);
    assert ra["backend"] == VStr(backend) && ra["role_name"] == VStr(role);
    assert "backend"[0] != "role_id"[0];
  }

  /** Takes a read response apart as the read callback does: the policies,
      the CIDRs, then the six numbers, stopping at the first that does not
      fit in 64 bits. */
  method DecodeResponse(data: map<string, Value>) returns (r: Result<RoleState, RoleError>)
    requires WellFormedRoleData(data)
    ensures r == DecodeRole(data)
  {
    var policies := StringsOf(data["policies"].items);
    var cidrs := DecodeCidrs(Lookup(data, "bound_cidr_list"));

    var secretIdTtl := Int64Field(data, "secret_id_ttl");
    if secretIdTtl.Failure? {
      return Failure(secretIdTtl.error);
    }
    var secretIdNumUses := Int64Field(data, "secret_id_num_uses");
    if secretIdNumUses.Failure? {
      return Failure(secretIdNumUses.error);
    }
    var tokenTtl := Int64Field(data, "token_ttl");
    if tokenTtl.Failure? {
      return Failure(tokenTtl.error);
    }
    var tokenNumUses := Int64Field(data, "token_num_uses");
    if tokenNumUses.Failure? {
      return Failure(tokenNumUses.error);
    }
    var tokenMaxTtl := Int64Field(data, "token_max_ttl");
    if tokenMaxTtl.Failure? {
      return Failure(tokenMaxTtl.error);
    }
    var period := Int64Field(data, "period");
    if period.Failure? {
      return Failure(period.error);
    }
    StrsInjective(policies, Unwrap(data["policies"].items));
    r := Success(RoleState(policies, cidrs, secretIdTtl.value, secretIdNumUses.value, tokenTtl.value,
                           tokenNumUses.value, tokenMaxTtl.value, period.value,
                           Lookup(data, "bind_secret_id")));
  }

  /** The `d.Set` calls of a read, applied in order to an empty map, store
      the role's attributes (the second `period` repeats the first). */
  lemma SetsGiveAttributes(backend: string, role: string, st: RoleState)
    ensures map[]["backend" := VStr(backend)]["role_name" := VStr(role)]["period" := VInt(st.period)]
              ["policies" := VList(Strs(st.policies))]["bound_cidr_list" := VList(Strs(st.cidrs))]
              ["secret_id_num_uses" := VInt(st.secretIdNumUses)]["secret_id_ttl" := VInt(st.secretIdTtl)]
              ["token_num_uses" := VInt(st.tokenNumUses)]["token_ttl" := VInt(st.tokenTtl)]
              ["token_max_ttl" := VInt(st.tokenMaxTtl)]["period" := VInt(st.period)]
              ["bind_secret_id" := st.bindSecretId]
            == RoleAttributes(backend, role, st)
  {
  }

  /** The `d.Set` calls of a successful read, in the source's order
      (`period` is set twice, to the same value). */
  method StoreRole(d: ResourceData, backend: string, role: string, st: RoleState)
    modifies d
    ensures d.attrs == old(d.attrs) + RoleAttributes(backend, role, st) && d.id == old(d.id)
  {
    ghost var stored: map<string, Value> := map[];
    assert old(d.attrs) + stored == old(d.attrs);
    d.Set("backend", VStr(backend));
    UpdateUnion(old(d.attrs), stored, "backend", VStr(backend));
    stored := stored["backend" := VStr(backend)];
    assert d.attrs == old(d.attrs) + stored;
    d.Set("role_name", VStr(role));
    UpdateUnion(old(d.attrs), stored, "role_name", VStr(role));
    stored := stored["role_name" := VStr(role)];
    assert d.attrs == old(d.attrs) + stored;
    d.Set("period", VInt(st.period));
    UpdateUnion(old(d.attrs), stored, "period", VInt(st.period));
    stored := stored["period" := VInt(st.period)];
    assert d.attrs == old(d.attrs) + stored;
    d.Set("policies", VList(Strs(st.policies)));
    UpdateUnion(old(d.attrs), stored, "policies", VList(Strs(st.policies)));
    stored := stored["policies" := VList(Strs(st.policies))];
    assert d.attrs == old(d.attrs) + stored;
    d.Set("bound_cidr_list", VList(Strs(st.cidrs)));
    UpdateUnion(old(d.attrs), stored, "bound_cidr_list", VList(Strs(st.cidrs)));
    stored := stored["bound_cidr_list" := VList(Strs(st.cidrs))];
    assert d.attrs == old(d.attrs) + stored;
    d.Set("secret_id_num_uses", VInt(st.secretIdNumUses));
    UpdateUnion(old(d.attrs), stored, "secret_id_num_uses", VInt(st.secretIdNumUses));
    stored := stored["secret_id_num_uses" := VInt(st.secretIdNumUses)];
    assert d.attrs == old(d.attrs) + stored;
    d.Set("secret_id_ttl", VInt(st.secretIdTtl));
    UpdateUnion(old(d.attrs), stored, "secret_id_ttl", VInt(st.secretIdTtl));
    stored := stored["secret_id_ttl" := VInt(st.secretIdTtl)];
    assert d.attrs == old(d.attrs) + stored;
    d.Set("token_num_uses", VInt(st.tokenNumUses));
    UpdateUnion(old(d.attrs), stored, "token_num_uses", VInt(st.tokenNumUses));
    stored := stored["token_num_uses" := VInt(st.tokenNumUses)];
    assert d.attrs == old(d.attrs) + stored;
    d.Set("token_ttl", VInt(st.tokenTtl));
    UpdateUnion(old(d.attrs), stored, "token_ttl", VInt(st.tokenTtl));
    stored := stored["token_ttl" := VInt(st.tokenTtl)];
    assert d.attrs == old(d.attrs) + stored;
    d.Set("token_max_ttl", VInt(st.tokenMaxTtl));
    UpdateUnion(old(d.attrs), stored, "token_max_ttl", VInt(st.tokenMaxTtl));
    stored := stored["token_max_ttl" := VInt(st.tokenMaxTtl)];
    assert d.attrs == old(d.attrs) + stored;
    d.Set("period", VInt(st.period));
    UpdateUnion(old(d.attrs), stored, "period", VInt(st.period));
    stored := stored["period" := VInt(st.period)];
    assert d.attrs == old(d.attrs) + stored;
    d.Set("bind_secret_id", st.bindSecretId);
    UpdateUnion(old(d.attrs), stored, "bind_secret_id", st.bindSecretId);
    stored := stored["bind_secret_id" := st.bindSecretId];
    SetsGiveAttributes(backend, role, st);
  }

  /** `approleAuthBackendRoleRead`. */
  method Read(d: ResourceData, read: ReadOutcome, roleIdRead: ReadOutcome)
    returns (err: Option<RoleError>, sent: seq<Request>)
    requires read.Found? ==> WellFormedRoleData(read.data)
    modifies d
    ensures Effect(err, d.id, d.attrs, sent) == ReadSpec(old(d.id), old(d.attrs), read, roleIdRead)
  {
    var path := d.id;
    var backend := BackendFromPath(path);
    if backend.Failure? {
      return Some(InvalidPath(path, backend.error)), [];
    }
    var role := NameFromPath(path);
    if role.Failure? {
      // both parsers match the same pattern, so this cannot happen
      assert false;
      return Some(InvalidPath(path, NoRoleFound)), [];
    }

    sent := [LogicalRead(path)];
    if read.ReadFailed? {
      return Some(ErrReadingRole(path, read.cause)), sent;
    }
    if read.NotFound? {
      d.SetId("");
      return None, sent;
    }
    var decoded := DecodeResponse(read.data);
    if decoded.Failure? {
      return Some(decoded.error), sent;
    }
    StoreRole(d, backend.value, role.value, decoded.value);

    sent := sent + [LogicalRead(path + "/role-id")];
    match roleIdRead {
      case ReadFailed(cause) =>
        return Some(ErrReadingRoleId(path, cause)), sent;
      case NotFound =>
      case Found(data2) =>
        d.Set("role_id", Lookup(data2, "role_id"));
    }
    err := None;
  }

  /** After a create, the read that follows stores the backend and role name
      the parsers take out of the role path: the trimmed configured values.
      For the backend that is what its StateFunc stores, so it shows no diff;
      `role_name` has no StateFunc, so a configured name with surrounding
      slashes reads back without them. */
  lemma CreatedRoleReadsBackTrimmed(cfg: RoleConfig, attrs: map<string, Value>, data: map<string, Value>, roleIdRead: ReadOutcome)
    requires Trim(cfg.backend, '/') != "" && Trim(cfg.roleName, '/') != ""
    requires '\n' !in Trim(cfg.backend, '/') && '\n' !in Trim(cfg.roleName, '/')
    requires '/' !in Trim(cfg.roleName, '/')
    requires WellFormedRoleData(data) && DecodeRole(data).Success?
    ensures var e := ReadSpec(RolePath(cfg.backend, cfg.roleName), attrs, Found(data), roleIdRead);
            && e.id == RolePath(cfg.backend, cfg.roleName)
            && Lookup(e.attrs, "backend") == VStr(Trim(cfg.backend, '/'))
            && Lookup(e.attrs, "role_name") == VStr(Trim(cfg.roleName, '/'))
  {
    RolePathRoundTrip(cfg.backend, cfg.roleName);
    var st := DecodeRole(data).value;
    StoredNames(attrs, Trim(cfg.backend, '/'), Trim(cfg.roleName, '/'), st,
                if roleIdRead.Found? then Lookup(roleIdRead.data, "role_id") else VNil);
  }

  // ---------------------------------------------------------------------
  // Create, Update, Delete, Exists
  // ---------------------------------------------------------------------

  /** The request that writes a RoleID. */
  function RoleIdWrite(path: string, roleId: string): Request {
    LogicalWrite(path + "/role-id", map["role_id" := VStr(roleId)])
  }

  /** The create callback on a resource with this id and these attributes:
      write the role, record its path as the id, write the RoleID if one is
      configured, then read the role back. */
  function CreateSpec(id: string, attrs: map<string, Value>, cfg: RoleConfig, write: CallOutcome,
                      roleIdWrite: CallOutcome, read: ReadOutcome, roleIdRead: ReadOutcome): (e: Effect)
    requires ConfigWellTyped(cfg)
    requires read.Found? ==> WellFormedRoleData(read.data)
    ensures |e.sent| >= 1 && e.sent[0].LogicalWrite?
    ensures e.sent[0].path == RolePath(cfg.backend, cfg.roleName) && IsCreatePayload(cfg, e.sent[0].data)
    ensures write.CallFailed? ==>
              e.err == Some(ErrWritingRole(e.sent[0].path, write.cause)) && e.id == id && e.attrs == attrs
              && |e.sent| == 1
    ensures write.Done? && cfg.roleId.Some? ==>
              |e.sent| >= 2 && e.sent[1] == RoleIdWrite(e.sent[0].path, cfg.roleId.value)
    ensures write.Done? && cfg.roleId.Some? && roleIdWrite.CallFailed? ==>
              && e.err == Some(ErrWritingRoleId(e.sent[0].path, roleIdWrite.cause))
              && e.id == e.sent[0].path && e.attrs == attrs && |e.sent| == 2
    ensures write.Done? && (cfg.roleId.None? || roleIdWrite.Done?) ==>
              var writes := if cfg.roleId.Some? then 2 else 1;
              && |e.sent| >= writes
              && Effect(e.err, e.id, e.attrs, e.sent[writes..])
                 == ReadSpec(e.sent[0].path, attrs, read, roleIdRead)
    ensures e.id != id ==> write.Done? && (e.id == RolePath(cfg.backend, cfg.roleName) || e.id == "")
  {
    var path := RolePath(cfg.backend, cfg.roleName);
    CreateEntriesPayload(cfg);
    var roleWrite := LogicalWrite(path, Collect(CreateEntries(cfg)));
    if write.CallFailed? then Effect(Some(ErrWritingRole(path, write.cause)), id, attrs, [roleWrite])
    else if cfg.roleId.Some? && roleIdWrite.CallFailed? then
      Effect(Some(ErrWritingRoleId(path, roleIdWrite.cause)), path, attrs,
             [roleWrite, RoleIdWrite(path, cfg.roleId.value)])
    else
      var writes := if cfg.roleId.Some? then [roleWrite, RoleIdWrite(path, cfg.roleId.value)] else [roleWrite];
      var r := ReadSpec(path, attrs, read, roleIdRead);
      assert (writes + r.sent)[|writes|..] == r.sent;
      Effect(r.err, r.id, r.attrs, writes + r.sent)
  }

  /** `approleAuthBackendRoleCreate`. */
  method Create(d: ResourceData, cfg: RoleConfig, write: CallOutcome, roleIdWrite: CallOutcome,
                read: ReadOutcome, roleIdRead: ReadOutcome)
    returns (err: Option<RoleError>, sent: seq<Request>)
    requires ConfigWellTyped(cfg)
    requires read.Found? ==> WellFormedRoleData(read.data)
    modifies d
    ensures Effect(err, d.id, d.attrs, sent)
            == CreateSpec(old(d.id), old(d.attrs), cfg, write, roleIdWrite, read, roleIdRead)
  {
    var path := RolePath(cfg.backend, cfg.roleName);
    var data := CreatePayload(cfg);
    var writes := [LogicalWrite(path, data)];
    if write.CallFailed? {
      return Some(ErrWritingRole(path, write.cause)), writes;
    }
    d.SetId(path);

    if cfg.roleId.Some? {
      writes := [LogicalWrite(path, data), RoleIdWrite(path, cfg.roleId.value)];
      if roleIdWrite.CallFailed? {
        return Some(ErrWritingRoleId(path, roleIdWrite.cause)), writes;
      }
    }

    var readSent;
    err, readSent := Read(d, read, roleIdRead);
    sent := writes + readSent;
  }

  /** The update callback on a resource with this id and these attributes:
      write the full payload to the path the id holds, write the RoleID if
      it changed, then read the role back. The id is set to itself even when
      the write fails. */
  function UpdateSpec(id: string, attrs: map<string, Value>, cfg: RoleConfig, roleIdChanged: bool,
                      write: CallOutcome, roleIdWrite: CallOutcome, read: ReadOutcome,
                      roleIdRead: ReadOutcome): (e: Effect)
    requires ConfigWellTyped(cfg)
    requires read.Found? ==> WellFormedRoleData(read.data)
    ensures |e.sent| >= 1 && e.sent[0].LogicalWrite?
    ensures e.sent[0].path == id && e.sent[0].data == UpdateData(cfg)
    ensures write.CallFailed? ==>
              e.err == Some(ErrUpdatingRole(id, write.cause)) && e.id == id && e.attrs == attrs && |e.sent| == 1
    ensures write.Done? && roleIdChanged ==>
              |e.sent| >= 2 && e.sent[1] == RoleIdWrite(id, cfg.roleId.GetOr(""))
    ensures write.Done? && roleIdChanged && roleIdWrite.CallFailed? ==>
              && e.err == Some(ErrUpdatingRoleId(id, roleIdWrite.cause))
              && e.id == id && e.attrs == attrs && |e.sent| == 2
    ensures write.Done? && (!roleIdChanged || roleIdWrite.Done?) ==>
              var writes := if roleIdChanged then 2 else 1;
              && |e.sent| >= writes
              && Effect(e.err, e.id, e.attrs, e.sent[writes..]) == ReadSpec(id, attrs, read, roleIdRead)
    ensures e.id == id || e.id == ""
  {
    var payload := UpdateData(cfg);
    var roleWrite := LogicalWrite(id, payload);
    if write.CallFailed? then Effect(Some(ErrUpdatingRole(id, write.cause)), id, attrs, [roleWrite])
    else if roleIdChanged && roleIdWrite.CallFailed? then
      Effect(Some(ErrUpdatingRoleId(id, roleIdWrite.cause)), id, attrs,
             [roleWrite, RoleIdWrite(id, cfg.roleId.GetOr(""))])
    else
      var writes := if roleIdChanged then [roleWrite, RoleIdWrite(id, cfg.roleId.GetOr(""))] else [roleWrite];
      var r := ReadSpec(id, attrs, read, roleIdRead);
      assert (writes + r.sent)[|writes|..] == r.sent;
      Effect(r.err, r.id, r.attrs, writes + r.sent)
  }

  /** `approleAuthBackendRoleUpdate`. */
  method Update(d: ResourceData, cfg: RoleConfig, roleIdChanged: bool, write: CallOutcome,
                roleIdWrite: CallOutcome, read: ReadOutcome, roleIdRead: ReadOutcome)
    returns (err: Option<RoleError>, sent: seq<Request>)
    requires ConfigWellTyped(cfg)
    requires read.Found? ==> WellFormedRoleData(read.data)
    modifies d
    ensures Effect(err, d.id, d.attrs, sent)
            == UpdateSpec(old(d.id), old(d.attrs), cfg, roleIdChanged, write, roleIdWrite, read, roleIdRead)
  {
    var path := d.id;
    var data := UpdatePayload(cfg);
    var writes := [LogicalWrite(path, data)];
    d.SetId(path);
    if write.CallFailed? {
      return Some(ErrUpdatingRole(path, write.cause)), writes;
    }

    if roleIdChanged {
      writes := [LogicalWrite(path, data), RoleIdWrite(path, cfg.roleId.GetOr(""))];
      if roleIdWrite.CallFailed? {
        return Some(ErrUpdatingRoleId(path, roleIdWrite.cause)), writes;
      }
    }

    var readSent;
    err, readSent := Read(d, read, roleIdRead);
    sent := writes + readSent;
  }

  /** `approleAuthBackendRoleDelete`: a 404 means the role is already gone,
      so the resource leaves state without an error; any other error is
      returned and the id stays. */
  method Delete(d: ResourceData, outcome: CallOutcome) returns (err: Option<RoleError>, sent: seq<Request>)
    modifies d
    ensures sent == [LogicalDelete(old(d.id))]
    ensures d.attrs == old(d.attrs)
    ensures outcome.Done? ==> err.None? && d.id == old(d.id)
    ensures outcome.CallFailed? && outcome.cause.Is404() ==> err.None? && d.id == ""
    ensures outcome.CallFailed? && !outcome.cause.Is404() ==>
              err == Some(ErrDeletingRole(old(d.id))) && d.id == old(d.id)
  {
    var path := d.id;
    sent := [LogicalDelete(path)];
    if outcome.CallFailed? && !outcome.cause.Is404() {
      return Some(ErrDeletingRole(path)), sent;
    } else if outcome.CallFailed? {
      d.SetId("");
      return None, sent;
    }
    err := None;
  }

  /** `approleAuthBackendRoleExists`: an error reports the role as present
      together with the error; otherwise the role exists iff the read found it. */
  method Exists(d: ResourceData, read: ReadOutcome) returns (found: bool, err: Option<RoleError>, sent: Request)
    ensures sent == LogicalRead(d.id)
    ensures read.ReadFailed? ==> found && err == Some(ErrCheckingExists(d.id, read.cause))
    ensures !read.ReadFailed? ==> found == read.Found? && err.None?
  {
    var path := d.id;
    sent := LogicalRead(path);
    if read.ReadFailed? {
      return true, Some(ErrCheckingExists(path, read.cause)), sent;
    }
    found, err := !read.NotFound?, None;
  }
}
