/** The `vault_audit` resource: an audit device enabled at a path, with a
    type, a description, a local flag and string options. */
module Audit {
  import opened Values
  import opened GoStrings
  import opened Resource

  /** The errors the resource's callbacks return, one per `fmt.Errorf`. */
  datatype AuditError =
    | OptionsNotMap
    | OptionsNotStringMap
    | ErrWriting(cause: ApiError)
    | ErrDeleting(cause: ApiError)
    | ErrReading(cause: ApiError)

  // ---------------------------------------------------------------------
  // Options
  // ---------------------------------------------------------------------

  /** Every option value would pass the `.(string)` type assertion. */
  predicate AllStringValues(m: map<string, Value>) {
    forall k :: k in m ==> m[k].VStr?
  }

  /** The `map[string]string` holding the same strings under the same keys. */
  function StringOptions(m: map<string, Value>): (opts: map<string, string>)
    requires AllStringValues(m)
    ensures opts.Keys == m.Keys
    ensures forall k :: k in opts ==> m[k] == VStr(opts[k])
  {
    map k | k in m :: m[k].s
  }

  /** What the conversion of `options` yields: the empty map when the
      attribute is unset, an error when it is not a map or holds a value
      that is not a string, else the same strings under the same keys. */
  function OptionsResult(raw: Option<Value>): (r: Result<map<string, string>, AuditError>)
    ensures raw.None? ==> r == Success(map[])
    ensures raw.Some? && !raw.value.VMap? ==> r == Failure(OptionsNotMap)
    ensures raw.Some? && raw.value.VMap? ==>
              (r.Success? <==> AllStringValues(raw.value.entries))
    ensures raw.Some? && raw.value.VMap? && r.Success? ==>
              && r.value.Keys == raw.value.entries.Keys
              && forall k :: k in r.value ==> raw.value.entries[k] == VStr(r.value[k])
    ensures raw.Some? && raw.value.VMap? && r.Failure? ==> r.error == OptionsNotStringMap
  {
    match raw
    case None => Success(map[])
    case Some(v) =>
      if !v.VMap? then Failure(OptionsNotMap)
      else if AllStringValues(v.entries) then Success(StringOptions(v.entries))
      else Failure(OptionsNotStringMap)
  }

  /** The conversion loop of `auditWrite`: copies each value into the
      string map, in whatever order the map is walked, and gives up at the
      first value that is not a string. */
  method ConvertOptions(raw: Option<Value>) returns (r: Result<map<string, string>, AuditError>)
    ensures r == OptionsResult(raw)
  {
    if raw.None? {
      return Success(map[]);
    }
    if !raw.value.VMap? {
      return Failure(OptionsNotMap);
    }
    var entries := raw.value.entries;
    var options: map<string, string> := map[];
    var todo := entries.Keys;
    while todo != {}
      invariant todo <= entries.Keys
      invariant options.Keys == entries.Keys - todo
      invariant forall k :: k in options ==> entries[k] == VStr(options[k])
      decreases |todo|
    {
      var k :| k in todo;
      var v := entries[k];
      if !v.VStr? {
        return Failure(OptionsNotStringMap);
      }
      options := options[k := v.s];
      todo := todo - {k};
    }
    assert AllStringValues(entries);
    assert options == StringOptions(entries);
    return Success(options);
  }

  // ---------------------------------------------------------------------
  // Write
  // ---------------------------------------------------------------------

  /** The resource's configuration as `auditWrite` reads it; `options` is
      None when `GetOk` reports it unset. */
  datatype AuditConfig = AuditConfig(
    path: string,
    auditType: string,
    description: string,
    options: Option<Value>,
    local: bool)

  /** The arguments of `client.Sys().EnableAudit`. */
  datatype EnableRequest = EnableRequest(
    path: string,
    auditType: string,
    description: string,
    options: map<string, string>)

  /** `auditWrite`: convert the options, enable the device, and only then
      record its path as the id. */
  method Write(d: ResourceData, cfg: AuditConfig, enable: CallOutcome)
    returns (err: Option<AuditError>, sent: Option<EnableRequest>)
    modifies d
    ensures d.attrs == old(d.attrs)
    ensures OptionsResult(cfg.options).Failure? ==>
              && err == Some(OptionsResult(cfg.options).error) && sent.None? && d.id == old(d.id)
    ensures OptionsResult(cfg.options).Success? ==>
              sent == Some(EnableRequest(cfg.path, cfg.auditType, cfg.description,
                                         OptionsResult(cfg.options).value))
    ensures OptionsResult(cfg.options).Success? && enable.CallFailed? ==>
              err == Some(ErrWriting(enable.cause)) && d.id == old(d.id)
    ensures OptionsResult(cfg.options).Success? && enable.Done? ==>
              err.None? && d.id == cfg.path
    ensures d.id == old(d.id) || (err.None? && sent.Some? && enable.Done? && d.id == cfg.path)
  {
    var options := ConvertOptions(cfg.options);
    if options.Failure? {
      return Some(options.error), None;
    }
    sent := Some(EnableRequest(cfg.path, cfg.auditType, cfg.description, options.value));
    if enable.CallFailed? {
      return Some(ErrWriting(enable.cause)), sent;
    }
    d.SetId(cfg.path);
    err := None;
  }

  // ---------------------------------------------------------------------
  // Read
  // ---------------------------------------------------------------------

  /** The key `ListAudit` files a device under: the path without
      surrounding slashes, plus one trailing slash. */
  function AuditKey(path: string): (key: string)
    ensures |key| >= 1 && key[|key| - 1] == '/'
    ensures key[..|key| - 1] == Trim(path, '/')
    ensures Trim(path, '/') != "" ==> key[|key| - 2] != '/'
  {
    Trim(path, '/') + "/"
  }

  /** `p`, `p/` and `/p/` name the same device. */
  lemma {:induction false} AuditKeyIgnoresSlashes(p: string)
    ensures AuditKey(p + "/") == AuditKey(p)
    ensures AuditKey("/" + p + "/") == AuditKey(p)
  {
    TrimIgnoresOuterChar(p, '/');
    TrimIgnoresOuterChar("/" + p, '/');
  }

  /** A key `ListAudit` returns is its own normal form. */
  lemma {:induction false} AuditKeyIdempotent(p: string)
    ensures AuditKey(AuditKey(p)) == AuditKey(p)
  {
    TrimIgnoresOuterChar(Trim(p, '/'), '/');
    TrimIdempotent(p, '/');
  }

  /** An entry of `ListAudit`'s result. */
  datatype AuditEntry = AuditEntry(
    auditType: string,
    description: string,
    local: bool,
    options: Option<map<string, string>>)

  /** The outcome of `client.Sys().ListAudit()`. */
  datatype ListOutcome = Listed(audits: map<string, AuditEntry>) | ListFailed(cause: ApiError)

  /** The attributes `auditRead` stores for a found device. */
  function EntryAttributes(path: string, e: AuditEntry): (attrs: map<string, Value>)
    ensures attrs.Keys == {"path", "type", "description", "local"} + (if e.options.Some? then {"options"} else {})
  {
    var base := map[
      "path" := VStr(path),
      "type" := VStr(e.auditType),
      "description" := VStr(e.description),
      "local" := VBool(e.local)];
    if e.options.Some? then base["options" := StringMapValue(e.options.value)] else base
  }

  /** `auditRead`: look the device up under its normalised key; a missing
      device leaves state, a found one refreshes the attributes. */
  method Read(d: ResourceData, list: ListOutcome) returns (err: Option<AuditError>)
    modifies d
    ensures list.ListFailed? ==>
              err == Some(ErrReading(list.cause)) && d.id == old(d.id) && d.attrs == old(d.attrs)
    ensures list.Listed? && AuditKey(old(d.id)) !in list.audits ==>
              err.None? && d.id == "" && d.attrs == old(d.attrs)
    ensures list.Listed? && AuditKey(old(d.id)) in list.audits ==>
              && err.None? && d.id == old(d.id)
              && d.attrs == old(d.attrs) + EntryAttributes(old(d.id), list.audits[AuditKey(old(d.id))])
  {
    var path := d.id;
    if list.ListFailed? {
      return Some(ErrReading(list.cause));
    }
    var key := AuditKey(path);
    if key !in list.audits {
      d.SetId("");
      return None;
    }
    var audit := list.audits[key];
    ghost var stored: map<string, Value> := map[];
    assert old(d.attrs) + stored == old(d.attrs);
    d.Set("path", VStr(path));
    UpdateUnion(old(d.attrs), stored, "path", VStr(path));
    stored := stored["path" := VStr(path)];
    d.Set("type", VStr(audit.auditType));
    UpdateUnion(old(d.attrs), stored, "type", VStr(audit.auditType));
    stored := stored["type" := VStr(audit.auditType)];
    d.Set("description", VStr(audit.description));
    UpdateUnion(old(d.attrs), stored, "description", VStr(audit.description));
    stored := stored["description" := VStr(audit.description)];
    d.Set("local", VBool(audit.local));
    UpdateUnion(old(d.attrs), stored, "local", VBool(audit.local));
    stored := stored["local" := VBool(audit.local)];
    if audit.options.Some? {
      d.Set("options", StringMapValue(audit.options.value));
      UpdateUnion(old(d.attrs), stored, "options", StringMapValue(audit.options.value));
      stored := stored["options" := StringMapValue(audit.options.value)];
    }
    assert stored == EntryAttributes(path, audit);
    err := None;
  }

  /** Whether `auditRead` finds the device does not depend on slashes
      around the id: `p`, `p/` and `/p/` are found or missed together. */
  lemma ReadFindsSlashVariants(p: string, audits: map<string, AuditEntry>)
    ensures AuditKey(p) in audits <==> AuditKey(p + "/") in audits
    ensures AuditKey(p) in audits <==> AuditKey("/" + p + "/") in audits
  {
    AuditKeyIgnoresSlashes(p);
  }

  // ---------------------------------------------------------------------
  // Delete
  // ---------------------------------------------------------------------

  /** `auditDelete`: every `DisableAudit` error is returned, a 404 included;
      the state is left alone either way. */
  method Delete(d: ResourceData, outcome: CallOutcome) returns (err: Option<AuditError>, sent: string)
    ensures sent == d.id
    ensures err.None? <==> outcome.Done?
    ensures outcome.CallFailed? ==> err == Some(ErrDeleting(outcome.cause))
  {
    sent := d.id;
    if outcome.CallFailed? {
      return Some(ErrDeleting(outcome.cause)), sent;
    }
    err := None;
  }
}
