/** The mount-tuning normaliser: `expandAuthMethodTune` turns the `tune`
    block of the configuration (a list holding at most one map) into the
    request sent to Vault, and `flattenAuthMethodTune` turns Vault's answer
    back into such a map. Their bodies are not part of this model; what is
    modelled is the behaviour `structures_test.go` pins down. */
module MountTune {
  import opened Values

  /** `api.MountConfigInput`, restricted to the tuned fields; a list field
      is None where Go has a nil slice. */
  datatype TuneInput = TuneInput(
    defaultLeaseTtl: string,
    maxLeaseTtl: string,
    auditNonHmacRequestKeys: Option<seq<string>>,
    auditNonHmacResponseKeys: Option<seq<string>>,
    listingVisibility: string,
    passthroughRequestHeaders: Option<seq<string>>)

  /** `api.MountConfigOutput`, restricted to the tuned fields; the TTLs are
      in seconds. */
  datatype TuneOutput = TuneOutput(
    defaultLeaseTtl: int,
    maxLeaseTtl: int,
    auditNonHmacRequestKeys: Option<seq<string>>,
    auditNonHmacResponseKeys: Option<seq<string>>,
    listingVisibility: string,
    passthroughRequestHeaders: Option<seq<string>>)

  /** The zero `api.MountConfigInput`. */
  const ZeroInput := TuneInput("", "", None, None, "", None)

  /** A key that holds a string in the configuration map. */
  predicate StringKey(key: string) {
    key == "default_lease_ttl" || key == "max_lease_ttl" || key == "listing_visibility"
  }

  /** A key that holds a list of strings in the configuration map. */
  predicate ListKey(key: string) {
    key == "audit_non_hmac_request_keys" || key == "audit_non_hmac_response_keys"
    || key == "passthrough_request_headers"
  }

  /** The configuration layer's promise: at most one map, whose known keys
      carry values of their declared types. */
  predicate WellTypedTune(flattened: seq<Value>) {
    |flattened| <= 1
    && (|flattened| == 1 ==>
          && flattened[0].VMap?
          && (forall k :: k in flattened[0].entries && StringKey(k) ==> flattened[0].entries[k].VStr?)
          && (forall k :: k in flattened[0].entries && ListKey(k) ==>
                flattened[0].entries[k].VList? && AllStrings(flattened[0].entries[k].items)))
  }

  /** A string field: its value when the key is present, else "". */
  function StringField(m: map<string, Value>, key: string): string
    requires key in m ==> m[key].VStr?
  {
    if key in m then m[key].s else ""
  }

  /** A list field: its strings in order when the key is present, else nil. */
  function ListField(m: map<string, Value>, key: string): (r: Option<seq<string>>)
    requires key in m ==> m[key].VList? && AllStrings(m[key].items)
    ensures r.Some? <==> key in m
    ensures r.Some? ==> Strs(r.value) == m[key].items
  {
    if key in m then Some(Unwrap(m[key].items)) else None
  }

  /** `expandAuthMethodTune`: an empty list gives the zero request; a map
      gives a field per key, and nil for a list key that is absent. */
  function Expand(flattened: seq<Value>): (r: TuneInput)
    requires WellTypedTune(flattened)
    ensures flattened == [] ==> r == ZeroInput
    ensures flattened != [] ==>
              var m := flattened[0].entries;
              && (r.auditNonHmacRequestKeys.Some? <==> "audit_non_hmac_request_keys" in m)
              && (r.auditNonHmacResponseKeys.Some? <==> "audit_non_hmac_response_keys" in m)
              && (r.passthroughRequestHeaders.Some? <==> "passthrough_request_headers" in m)
              && (r.auditNonHmacRequestKeys.Some? ==>
                    Strs(r.auditNonHmacRequestKeys.value) == m["audit_non_hmac_request_keys"].items)
              && (r.auditNonHmacResponseKeys.Some? ==>
                    Strs(r.auditNonHmacResponseKeys.value) == m["audit_non_hmac_response_keys"].items)
              && (r.passthroughRequestHeaders.Some? ==>
                    Strs(r.passthroughRequestHeaders.value) == m["passthrough_request_headers"].items)
              && ("default_lease_ttl" in m ==> VStr(r.defaultLeaseTtl) == m["default_lease_ttl"])
              && ("max_lease_ttl" in m ==> VStr(r.maxLeaseTtl) == m["max_lease_ttl"])
              && ("listing_visibility" in m ==> VStr(r.listingVisibility) == m["listing_visibility"])
              && ("default_lease_ttl" !in m ==> r.defaultLeaseTtl == "")
              && ("max_lease_ttl" !in m ==> r.maxLeaseTtl == "")
              && ("listing_visibility" !in m ==> r.listingVisibility == "")
  {
    if flattened == [] then ZeroInput
    else
      var m := flattened[0].entries;
      TuneInput(
        StringField(m, "default_lease_ttl"),
        StringField(m, "max_lease_ttl"),
        ListField(m, "audit_non_hmac_request_keys"),
        ListField(m, "audit_non_hmac_response_keys"),
        StringField(m, "listing_visibility"),
        ListField(m, "passthrough_request_headers"))
  }

  /** A list field as a `[]interface{}` entry, when it is not nil. */
  function WithList(m: map<string, Value>, key: string, xs: Option<seq<string>>): map<string, Value> {
    if xs.Some? then m[key := VList(Strs(xs.value))] else m
  }

  /** `flattenAuthMethodTune`, with `formatSeconds` the duration formatter
      it uses for the TTLs. */
  function Flatten(formatSeconds: int -> string, o: TuneOutput): (m: map<string, Value>)
    ensures m.Keys == {"default_lease_ttl", "max_lease_ttl", "listing_visibility"}
                      + (if o.auditNonHmacRequestKeys.Some? then {"audit_non_hmac_request_keys"} else {})
                      + (if o.auditNonHmacResponseKeys.Some? then {"audit_non_hmac_response_keys"} else {})
                      + (if o.passthroughRequestHeaders.Some? then {"passthrough_request_headers"} else {})
    ensures m["listing_visibility"] == VStr(o.listingVisibility)
    ensures m["default_lease_ttl"] == VStr(formatSeconds(o.defaultLeaseTtl))
    ensures m["max_lease_ttl"] == VStr(formatSeconds(o.maxLeaseTtl))
    ensures o.auditNonHmacRequestKeys.Some? ==>
              m["audit_non_hmac_request_keys"] == VList(Strs(o.auditNonHmacRequestKeys.value))
    ensures o.auditNonHmacResponseKeys.Some? ==>
              m["audit_non_hmac_response_keys"] == VList(Strs(o.auditNonHmacResponseKeys.value))
    ensures o.passthroughRequestHeaders.Some? ==>
              m["passthrough_request_headers"] == VList(Strs(o.passthroughRequestHeaders.value))
  {
    var base := map[
      "default_lease_ttl" := VStr(formatSeconds(o.defaultLeaseTtl)),
      "max_lease_ttl" := VStr(formatSeconds(o.maxLeaseTtl)),
      "listing_visibility" := VStr(o.listingVisibility)];
    var m1 := WithList(base, "audit_non_hmac_request_keys", o.auditNonHmacRequestKeys);
    var m2 := WithList(m1, "audit_non_hmac_response_keys", o.auditNonHmacResponseKeys);
    WithList(m2, "passthrough_request_headers", o.passthroughRequestHeaders)
  }

  /** Expanding what flatten produced gives back every field: the formatted
      TTLs, the list fields in order (nil staying nil) and the visibility. */
  lemma ExpandAfterFlatten(formatSeconds: int -> string, o: TuneOutput)
    ensures WellTypedTune([VMap(Flatten(formatSeconds, o))])
    ensures Expand([VMap(Flatten(formatSeconds, o))])
            == TuneInput(formatSeconds(o.defaultLeaseTtl), formatSeconds(o.maxLeaseTtl),
                         o.auditNonHmacRequestKeys, o.auditNonHmacResponseKeys,
                         o.listingVisibility, o.passthroughRequestHeaders)
  {
    var m := Flatten(formatSeconds, o);
    ListEntryRoundTrip(m, "audit_non_hmac_request_keys", o.auditNonHmacRequestKeys);
    ListEntryRoundTrip(m, "audit_non_hmac_response_keys", o.auditNonHmacResponseKeys);
    ListEntryRoundTrip(m, "passthrough_request_headers", o.passthroughRequestHeaders);
  }

  lemma ListEntryRoundTrip(m: map<string, Value>, key: string, xs: Option<seq<string>>)
    requires key in m <==> xs.Some?
    requires xs.Some? ==> m[key] == VList(Strs(xs.value))
    ensures key in m ==> m[key].VList? && AllStrings(m[key].items)
    ensures ListField(m, key) == xs
  {
    if xs.Some? {
      UnwrapStrs(xs.value);
    }
  }

  /** The configuration of `TestExpandAuthMethodTune`. */
  const ExpandTestMap: map<string, Value> := map[
    "default_lease_ttl" := VStr("10m"),
    "max_lease_ttl" := VStr("20m"),
    "audit_non_hmac_request_keys" := VList([VStr("foo"), VStr("bar")]),
    "listing_visibility" := VStr("unauth"),
    "passthrough_request_headers" := VList([VStr("X-Custom"), VStr("X-Mas")])]

  /** `TestExpandAuthMethodTune`: the strings are copied, the lists keep
      their order, and the absent response-key list stays nil. */
  lemma ExpandTestScenario()
    ensures WellTypedTune([VMap(ExpandTestMap)])
    ensures Expand([VMap(ExpandTestMap)])
            == TuneInput("10m", "20m", Some(["foo", "bar"]), None, "unauth", Some(["X-Custom", "X-Mas"]))
  {
    var m := ExpandTestMap;
    assert Strs(["foo", "bar"]) == m["audit_non_hmac_request_keys"].items;
    assert Strs(["X-Custom", "X-Mas"]) == m["passthrough_request_headers"].items;
    assert "audit_non_hmac_response_keys" !in m;
    StrsInjective(ListField(m, "audit_non_hmac_request_keys").value, ["foo", "bar"]);
    StrsInjective(ListField(m, "passthrough_request_headers").value, ["X-Custom", "X-Mas"]);
  }

  /** `TestFlattenAuthMethodTune`: with a formatter that writes 600 seconds
      as "10m" and 1200 as "20m", the map has exactly five keys, the empty
      visibility included and the nil response-key list left out. */
  lemma FlattenTestScenario(formatSeconds: int -> string)
    requires formatSeconds(600) == "10m" && formatSeconds(1200) == "20m"
    ensures Flatten(formatSeconds, TuneOutput(600, 1200, Some(["foo", "bar"]), None, "", Some(["X-Custom", "X-Mas"])))
            == map[
                 "default_lease_ttl" := VStr("10m"),
                 "max_lease_ttl" := VStr("20m"),
                 "audit_non_hmac_request_keys" := VList([VStr("foo"), VStr("bar")]),
                 "passthrough_request_headers" := VList([VStr("X-Custom"), VStr("X-Mas")]),
                 "listing_visibility" := VStr("")]
  {
    assert Strs(["foo", "bar"]) == [VStr("foo"), VStr("bar")];
    assert Strs(["X-Custom", "X-Mas"]) == [VStr("X-Custom"), VStr("X-Mas")];
  }
}
