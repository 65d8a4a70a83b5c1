# Vault provider resources: AppRole roles, audit devices, mount tuning

This project models three parts of the Terraform provider for HashiCorp Vault
and proves properties of them.

- **`vault_approle_auth_backend_role`** (module `AppRoleRole`). A role lives at
  `auth/<backend>/role/<role>`. The model covers:
  - building that path, trimming `/` from both parts;
  - taking the path apart again with the two regular expressions
    `^auth/(.+)/role/.+$` and `^auth/.+/role/(.+)$`;
  - writing the bound-CIDR set comma-joined and decoding it on read, either
    from a string (older Vault) or from a list;
  - the create payload, which holds only the fields that are set, and the
    update payload, which always holds all nine keys;
  - the create, read, update, delete and exists callbacks, each a method
    on a `ResourceData` object (`id` and attributes) that returns its error
    and the requests it sent.
- **`vault_audit`** (module `Audit`). The model covers:
  - converting the `options` attribute into a string-to-string map, and
    rejecting the whole map as soon as one value is not a string;
  - enabling the device, with the id set only after success;
  - reading it back under the normalised key `Trim(path, "/") + "/"`, with
    a missing device dropped from state;
  - deletion, which passes every error on.
- **Mount tuning** (module `MountTune`). This is the contract of
  `expandAuthMethodTune` and `flattenAuthMethodTune`, as their unit tests fix
  it: strings are copied verbatim, lists keep their order, a missing list
  stays nil, and `listing_visibility` is always emitted.

Supporting modules:
- `Values`: Go's `interface{}` values (strings, ints, bools, `json.Number`,
  lists, maps), plus `Option` and `Result`.
- `GoStrings`: `strings.Trim`, `Join` and `Split` for a one-character
  cutset or separator.
- `Resource`: the resource data object, the outcomes of API calls, and the
  requests sent through `client.Logical()`.

Every call to Vault is a parameter that gives its outcome: done, failed with
an `ApiError` carrying an HTTP status, or, for reads, found or not found.

### How the regular expressions are modelled

Both regular expressions match exactly the strings that satisfy three
conditions:
- the string starts with `auth/`;
- it holds no newline, because RE2's `.` excludes `\n` and `$` without the
  `m` flag is the end of the text;
- it has a `/role/` with at least one character before it (after `auth/`)
  and at least one after it.

The leading `.+` is greedy, and Go prefers leftmost-first submatches. So both
submatches split at the last such `/role/` (`RoleSplit`). A match always has
exactly two submatches. The "unexpected number of matches" branch is
therefore dead, and the parsers fail exactly when the path does not match.

## Model

| member | source | states |
|---|---|---|
| AppRoleRole.StoredBackendIsStable | vault/resource_approle_auth_backend_role.go:105-107 | Trimming the stored backend again changes nothing, and the role path built from the stored backend equals the one built from the configured backend |
| GoStrings.Trim | vault/resource_approle_auth_backend_role.go:378 | `strings.Trim` with one cutset character: the result neither starts nor ends with the character, and it is the input with some run of that character removed at each end |
| GoStrings.TrimIdempotent | vault/resource_approle_auth_backend_role.go:105-107 | Trimming twice equals trimming once |
| AppRoleRole.RolePath | vault/resource_approle_auth_backend_role.go:377-379 | The path is `auth/`, then the backend with `/` trimmed at both ends, then `/role/`, then the trimmed role, with nothing else; its round trip through the parsers is RolePathRoundTrip and StoredBackendIsStable |
| AppRoleRole.MatchesRoleRegex | vault/resource_approle_auth_backend_role.go:16-17 | A path either regex accepts starts with `auth/` and is at least 13 characters long (`auth/` + one character + `/role/` + one character) |
| AppRoleRole.RoleSplit | vault/resource_approle_auth_backend_role.go:16-17 | There is a split position iff the path matches the regexes; the split is a `/role/` separator with no separator after it (greedy, leftmost-first) |
| AppRoleRole.BackendSubmatch | vault/resource_approle_auth_backend_role.go:396 | `FindStringSubmatch` returns 2 strings on a match and none otherwise |
| AppRoleRole.NameSubmatch | vault/resource_approle_auth_backend_role.go:385 | `FindStringSubmatch` returns 2 strings on a match and none otherwise |
| AppRoleRole.BackendFromPath | vault/resource_approle_auth_backend_role.go:392-401 | Fails iff the path does not match the regex, and then always with "no backend found"; the wrong-count branch is unreachable |
| AppRoleRole.NameFromPath | vault/resource_approle_auth_backend_role.go:381-390 | Fails iff the path does not match the regex, and then always with "no role found"; the wrong-count branch is unreachable |
| AppRoleRole.ParsedPathReassembles | vault/resource_approle_auth_backend_role.go:381-401 | On a matching path both parsers succeed; `auth/` + backend + `/role/` + role rebuilds the path; both parts are non-empty and newline-free, and no `/role/` that could split the path starts after the backend, so the split is at the last separator |
| AppRoleRole.RolePathRoundTrip | vault/resource_approle_auth_backend_role.go:377-401 | If the trimmed backend B and role R are non-empty and newline-free, and R has no `/`, the parsers return B and R from `approleAuthBackendRolePath(b, r)` |
| AppRoleRole.JoinedPathParses | vault/resource_approle_auth_backend_role.go:381-401 | The parsers split `auth/b/role/r` back into b and r when both are non-empty and newline-free and r has no `/` |
| AppRoleRole.NoSeparatorAfter | vault/resource_approle_auth_backend_role.go:16-17 | No `/role/` can start inside a tail without `/` |
| AppRoleRole.NoBackendWithoutAuthPrefix | vault/resource_approle_auth_backend_role.go:381-395 | Every path without the `auth/` prefix gives "no backend found" from one parser and "no role found" from the other |
| AppRoleRole.NoRoleWithEmptySegment | vault/resource_approle_auth_backend_role.go:381-384 | A path whose only `/role/` sits right after `auth/` (`auth//role/web`) or at the very end (`auth/approle/role/`) gives "no role found" |
| AppRoleRole.EmptySegmentBeforeLaterSeparator | vault/resource_approle_auth_backend_role.go:16-17 | An empty first segment alone does not stop a match: `auth//role/a/role/b` gives backend `/role/a` and role `b`, and `auth/a/role/b/role/` gives role `b/role/` |
| AppRoleRole.NoSeparatorStartsWithin | vault/resource_approle_auth_backend_role.go:16-17 | A path with no `/` where a separator could start does not match |
| AppRoleRole.LastSeparatorWins | vault/resource_approle_auth_backend_role.go:16-17 | For `auth/approle/role/a/role/b` the backend is `approle/role/a` and the role is `b` |
| AppRoleRole.StringsOf | vault/resource_approle_auth_backend_role.go:122-132 | The append loop yields the set's strings, in the same order |
| AppRoleRole.CidrsOf | vault/resource_approle_auth_backend_role.go:215-227 | A non-empty string yields pieces that contain no comma and re-join to it; a list yields its strings in order; `""` and any other value yield none |
| AppRoleRole.DecodeCidrs | vault/resource_approle_auth_backend_role.go:215-227 | The type switch (with its append loop) computes CidrsOf |
| GoStrings.Join | vault/resource_approle_auth_backend_role.go:142 | `strings.Join`: the first element leads the result and is followed by the separator when more follow; joining separator-free elements yields a separator iff there are at least two |
| GoStrings.Split | vault/resource_approle_auth_backend_role.go:221 | `strings.Split`: there is always at least one piece, and no piece holds the separator |
| GoStrings.JoinSplit | vault/resource_approle_auth_backend_role.go:221 | `Join(Split(s, sep), sep) == s` |
| GoStrings.SplitJoin | vault/resource_approle_auth_backend_role.go:142 | Splitting the join of a non-empty list of comma-free strings gives the list back |
| AppRoleRole.CidrsRoundTrip | vault/resource_approle_auth_backend_role.go:141-143 | Decoding comma-joined CIDRs gives them back, unless a CIDR holds a comma or the list is `[""]` |
| AppRoleRole.EmptyCidrIsLost | vault/resource_approle_auth_backend_role.go:219-222 | The set `{""}` is written as `""` and read back as no CIDRs |
| AppRoleRole.CollectEntry | vault/resource_approle_auth_backend_role.go:134-161 | In a payload written key by key with distinct keys, each key is present iff its entry is set, and then holds that entry's value |
| AppRoleRole.CollectAbsent | vault/resource_approle_auth_backend_role.go:134-161 | A key that no entry names is absent from the payload |
| AppRoleRole.CollectKeys | vault/resource_approle_auth_backend_role.go:134-161 | Every key of the payload is named by some entry |
| AppRoleRole.CreateEntriesDistinct | vault/resource_approle_auth_backend_role.go:134-161 | The nine keys the create callback may write are distinct |
| AppRoleRole.CreateEntriesPayload | vault/resource_approle_auth_backend_role.go:134-161 | The create payload holds only the nine role keys. `policies` is present iff there are policies, and `bound_cidr_list` iff there are CIDRs, then comma-joined. Every other field is present iff set, with its value |
| AppRoleRole.PutIfSet | vault/resource_approle_auth_backend_role.go:135-137 | One `if v, ok := ...; ok { data[k] = v }` step extends the collected payload by exactly one entry |
| AppRoleRole.CreatePayload | vault/resource_approle_auth_backend_role.go:122-161 | The payload built key by key equals the collected create entries |
| AppRoleRole.UpdateData | vault/resource_approle_auth_backend_role.go:308-318 | The update payload has exactly the nine keys: unset fields at their Go zero value, and the CIDRs comma-joined (`""` for none) |
| AppRoleRole.UpdatePayload | vault/resource_approle_auth_backend_role.go:296-318 | The loops and map literal of the update callback build exactly that payload |
| AppRoleRole.UpdatedCidrsReadBack | vault/resource_approle_auth_backend_role.go:310 | Decoding the `bound_cidr_list` of UpdateData, that is, reading back the CIDRs an update wrote, gives the same CIDRs, the empty set included, unless a CIDR holds a comma or the set is `{""}` |
| AppRoleRole.DecodeRole | vault/resource_approle_auth_backend_role.go:209-257 | Decoding succeeds iff all six numbers fit in int64; failure is "not a number". On success the six numbers are the response's values, `bind_secret_id` is the response's raw value, the policies are the list's strings and the CIDRs are CidrsOf |
| AppRoleRole.DecodeResponse | vault/resource_approle_auth_backend_role.go:209-257 | The statement sequence of the read callback computes DecodeRole |
| AppRoleRole.ReadSpec | vault/resource_approle_auth_backend_role.go:184-289 | The read sends nothing exactly when the id is not a role path, and then returns an invalid-path error. A nil response clears the id and returns nil. The id changes only then. Attributes change only to record a backend and role that rebuild the id |
| AppRoleRole.StoredNames | vault/resource_approle_auth_backend_role.go:259-260 | After the `d.Set` calls, `backend` and `role_name` hold the parsed parts, whether or not `role_id` is then set |
| AppRoleRole.SetsGiveAttributes | vault/resource_approle_auth_backend_role.go:259-276 | The twelve `d.Set` calls, in order, store RoleAttributes |
| AppRoleRole.StoreRole | vault/resource_approle_auth_backend_role.go:259-276 | Overlays RoleAttributes on the state's attributes and leaves the id alone |
| AppRoleRole.Read | vault/resource_approle_auth_backend_role.go:184-289 | The callback's error, new id, new attributes and requests are those of ReadSpec |
| AppRoleRole.CreatedRoleReadsBackTrimmed | vault/resource_approle_auth_backend_role.go:105-107 | After a create, the read keeps the id and stores the trimmed backend and role name. For the backend that is the value its StateFunc stores; `role_name` has no StateFunc |
| AppRoleRole.CreateSpec | vault/resource_approle_auth_backend_role.go:113-182 | The first request writes the create payload to the role path. A failed write returns its error and changes nothing. A configured RoleID is written next, and its failure keeps the new id. Otherwise the rest is the read of the role path. The id changes only after a successful write |
| AppRoleRole.Create | vault/resource_approle_auth_backend_role.go:113-182 | The callback's error, new id, new attributes and requests are those of CreateSpec |
| AppRoleRole.UpdateSpec | vault/resource_approle_auth_backend_role.go:291-342 | The first request writes all nine keys to the id's path. A failed write returns its error and changes nothing. A changed RoleID is written next. Otherwise the rest is the read. The id is kept or cleared, never changed to another path |
| AppRoleRole.Update | vault/resource_approle_auth_backend_role.go:291-342 | The callback's error, new id, new attributes and requests are those of UpdateSpec |
| AppRoleRole.Delete | vault/resource_approle_auth_backend_role.go:344-360 | Sends one delete. A 404 is success and clears the id; any other error is returned and keeps the id; success keeps the id |
| AppRoleRole.Exists | vault/resource_approle_auth_backend_role.go:362-375 | A read error gives `(true, err)`; otherwise the result is `(resp != nil, nil)` |
| Audit.StringOptions | vault/resource_audit.go:76-82 | The string map has the same keys and values as the input map |
| Audit.OptionsResult | vault/resource_audit.go:70-83 | Absent options give the empty map. A non-map value gives "options should be a map". Otherwise success holds iff every value is a string, and then the result has the same keys and values; failure is "should be a string -> string map" |
| Audit.ConvertOptions | vault/resource_audit.go:70-83 | The `for k, v := range` loop, in any iteration order, computes OptionsResult |
| Audit.Write | vault/resource_audit.go:63-97 | A conversion error is returned before EnableAudit, with nothing sent and the id unchanged. Otherwise EnableAudit gets the converted options. On its failure the error is returned and the id is untouched. The id is set to `path` only after success |
| Audit.AuditKey | vault/resource_audit.go:128 | The key ends in `/`; before that `/` is the trimmed path; with a non-empty trimmed path it ends in exactly one `/` |
| Audit.AuditKeyIgnoresSlashes | vault/resource_audit.go:125-128 | `p`, `p/` and `/p/` give the same key |
| Audit.AuditKeyIdempotent | vault/resource_audit.go:125-128 | A key is its own normal form |
| Audit.EntryAttributes | vault/resource_audit.go:135-141 | `path`, `type`, `description` and `local` are always set; `options` is set iff the entry has options |
| Audit.Read | vault/resource_audit.go:113-144 | A list error is returned with state unchanged. A missing key clears the id, sets no field and returns nil. A found entry keeps the id and overlays EntryAttributes |
| Audit.ReadFindsSlashVariants | vault/resource_audit.go:125-133 | The read finds or misses `p`, `p/` and `/p/` together |
| Audit.Delete | vault/resource_audit.go:99-111 | Returns nil iff DisableAudit succeeded; every error, 404 included, is returned |
| MountTune.ListField | vault/structures_test.go:15-17 | A list field is non-nil iff its key is present, and then it holds the list's strings in order |
| MountTune.Expand | vault/structures_test.go:10-36 | An empty list gives the zero input. Otherwise each list field is non-nil iff its key is present, and then in order. Each string field is copied verbatim when its key is present and is `""` when it is absent |
| MountTune.Flatten | vault/structures_test.go:38-63 | The keys are the two TTLs and `listing_visibility`, always, plus each non-nil list field. The TTLs are formatted. The visibility is copied, `""` included. Each non-nil list field is emitted as the list of its strings |
| MountTune.ExpandAfterFlatten | vault/structures_test.go:10-63 | Expanding a flattened output gives back every field, including list order and nil lists |
| MountTune.ExpandTestScenario | vault/structures_test.go:10-36 | The input of `TestExpandAuthMethodTune` expands to its expected value, with the response keys nil |
| MountTune.FlattenTestScenario | vault/structures_test.go:38-63 | With a formatter mapping 600 to "10m" and 1200 to "20m", the output of `TestFlattenAuthMethodTune` is exactly the expected five-key map |

## Left out

- Calls to Vault (`client.Logical().Write/Read/Delete`, `client.Sys().EnableAudit/ListAudit/DisableAudit`) are network I/O. Each is a parameter giving its outcome. Only the requests the callbacks send are recorded.
- `util.Is404` is not part of this model; an error is a 404 when its status is 404.
- The schema declarations (types, defaults, `ForceNew`, `Computed`) are framework configuration. Only the backend's `StateFunc` trim is modelled.
- `GetOk`/`GetOkExists` zero-value semantics: a configured field is an `Option`, with None where `GetOk` reports it unset. The update callback's `d.Get` is the value or the Go zero value. `d.HasChange("role_id")` is a boolean parameter.
- `schema.Set` ordering is not modelled: a set is the sequence its `List()` returns.
- Go type assertions that would panic (`.([]interface{})`, `.(string)`, `.(json.Number)`) become preconditions (`ConfigWellTyped`, `WellFormedRoleData`).
- AppRoleRole.DecodeRole: `json.Number.Int64` is modelled on integer numbers only, failing when the value is out of 64-bit range. Non-integer or malformed number text is not modelled.
- AppRoleRole.Read: the errors `d.Set("policies")` and `d.Set("bound_cidr_list")` could return (lines 262-269) are not modelled. `d.Set` is taken to always succeed.
- The `[DEBUG]`/`[WARN]` log lines are not modelled.
- Audit.ConvertOptions: Go's random map iteration order is modelled by picking any remaining key. Which non-string value trips the error first is therefore not fixed, but the error itself is the same either way.
- Audit.Write: `local` is part of the configuration but, as in the source, it is not passed to `EnableAudit`.
- MountTune.Expand and MountTune.Flatten: the bodies of `expandAuthMethodTune` and `flattenAuthMethodTune` (structures.go) are not part of this model. The model states what the tests fix, plus the reading that lists present in the input are converted. Whether Flatten emits a list key for an empty non-nil slice is not fixed by the tests; the model emits it exactly when the field is non-nil.
- MountTune.Flatten: the seconds-to-duration formatter is a function parameter. It is constrained only at 600 → "10m" and 1200 → "20m", in FlattenTestScenario.
- MountTune.Expand: the configuration layer guarantees at most one `tune` block with well-typed values (`WellTypedTune`). Other inputs are not modelled.
