/**
  Owner-tagged handles.  The router wraps the handles of a backend in an envelope that names the
  owning generation, and routes follow-up calls to that owner whatever is active by then.
 */
module Handles {
  import opened Wrappers
  import opened Registry
  import opened ControlPlane

  /** base64url (section 5 of RFC 4648) and the keyed digest, both as text. */
  datatype Envelope = Envelope(encode: string -> string, decode: string -> string, mac: string -> string)

  predicate Dotless(s: string) { forall i | 0 <= i < |s| :: s[i] != '.' }

  ghost predicate Sound(env: Envelope) {
    && (forall s :: env.decode(env.encode(s)) == s)
    && (forall s :: Dotless(env.encode(s)) && |env.encode(s)| <= 6 * |s| + 1 && (env.encode(s) == "" ==> s == ""))
    && (forall s :: Dotless(env.mac(s)) && |env.mac(s)| == 43)
  }

  datatype Kind = App | Rec
  {
    function Name(): string { if App? then "app" else "rec" }
  }

  predicate IsHex(s: string) { forall i | 0 <= i < |s| :: '0' <= s[i] <= '9' || 'a' <= s[i] <= 'f' }

  predicate ValidId(id: Id) { |id| == 32 && IsHex(id) }

  /** A handle as a backend issues it. */
  predicate IsRaw(kind: Kind, s: string) { |s| == 36 && s[..4] == kind.Name() + "_" && IsHex(s[4..]) }

  const MAX_HANDLE: nat := 2048

  datatype Refusal = OwnerUnknown | InvalidHandle | UnknownGeneration

  function JoinDots(fields: seq<string>): string {
    if fields == [] then "" else if |fields| == 1 then fields[0] else fields[0] + "." + JoinDots(fields[1..])
  }

  /** Version, owner, kind and encoded raw handle. */
  function Parts(env: Envelope, id: Id, kind: Kind, raw: string): seq<string> {
    ["hs1", id, kind.Name(), env.encode(raw)]
  }

  function Wrap(env: Envelope, id: Id, kind: Kind, raw: string): string {
    var value := JoinDots(Parts(env, id, kind, raw));
    value + "." + env.mac(value)
  }

  function FirstDot(s: string): (i: nat)
    ensures i <= |s| && (forall k | 0 <= k < i :: s[k] != '.') && (i < |s| ==> s[i] == '.')
  {
    if s == "" || s[0] == '.' then 0 else 1 + FirstDot(s[1..])
  }

  /** The fields between dots. */
  function Fields(s: string): seq<string>
    decreases |s|
  {
    var i := FirstDot(s);
    if i == |s| then [s] else [s[..i]] + Fields(s[i + 1..])
  }

  function Owner(r: Registry, id: Id, handle: string): Result<(Generation, string), Refusal> {
    var g := Lookup(r.generations, id);
    if g.None? then Err(UnknownGeneration) else Ok((g.value, handle))
  }

  /** The owner of a handle that a call presents, and the handle its backend knows. */
  function Unwrap(env: Envelope, r: Registry, value: string, kind: Kind): Result<(Generation, string), Refusal> {
    if !("hs1." <= value) then
      if r.legacyOwner.None? || !(IsRaw(App, value) || IsRaw(Rec, value)) || !(kind.Name() + "_" <= value) then Err(OwnerUnknown)
      else Owner(r, r.legacyOwner.value, value)
    else
      var f := Fields(value);
      if |f| != 5 || f[0] != "hs1" || f[1] == "" || f[3] == "" || f[2] != kind.Name() || |value| > MAX_HANDLE
         || f[4] != env.mac(JoinDots(f[..4]))
      then Err(InvalidHandle)
      else
        var raw := env.decode(f[3]);
        if !IsRaw(kind, raw) then Err(InvalidHandle) else Owner(r, f[1], raw)
  }

  lemma FieldsCons(first: string, rest: string)
    requires Dotless(first)
    ensures Fields(first + "." + rest) == [first] + Fields(rest)
  {
    var s := first + "." + rest;
    assert s[|first|] == '.' && forall k | 0 <= k < |first| :: s[k] == first[k];
    assert FirstDot(s) == |first|;
    assert s[..|first|] == first && s[|first| + 1..] == rest;
  }

  lemma FieldsOne(s: string)
    requires Dotless(s)
    ensures Fields(s) == [s]
  {
    assert FirstDot(s) == |s|;
  }

  predicate AllDotless(fields: seq<string>) { forall i | 0 <= i < |fields| :: Dotless(fields[i]) }

  /** Dotless fields joined by dots fall apart into exactly those fields. */
  lemma {:induction false} FieldsOfJoin(fields: seq<string>)
    requires fields != [] && AllDotless(fields)
    ensures Fields(JoinDots(fields)) == fields
  {
    if |fields| == 1 {
      FieldsOne(fields[0]);
    } else {
      FieldsOfJoin(fields[1..]);
      FieldsCons(fields[0], JoinDots(fields[1..]));
    }
  }

  lemma {:induction false} JoinSnoc(fields: seq<string>, last: string)
    requires fields != []
    ensures JoinDots(fields) + "." + last == JoinDots(fields + [last])
  {
    if |fields| == 1 {
      assert (fields + [last])[1..] == [last];
    } else {
      JoinSnoc(fields[1..], last);
      assert (fields + [last])[1..] == fields[1..] + [last];
      var tail := JoinDots(fields[1..]);
      assert fields[0] + "." + tail + "." + last == fields[0] + "." + (tail + "." + last);
    }
  }

  lemma {:induction false} JoinLength(fields: seq<string>, bound: nat)
    requires forall i | 0 <= i < |fields| :: |fields[i]| <= bound
    ensures |JoinDots(fields)| <= |fields| * (bound + 1)
  {
    if |fields| > 1 {
      JoinLength(fields[1..], bound);
    }
  }

  /**
    Handle ownership.  A wrapped handle unwraps to its generation and to the raw handle exactly when
    it is asked for under its own kind, its generation is still registered and the raw handle is one
    that backends issue.  It is never taken for a raw legacy handle.
   */
  lemma WrappedHandle(env: Envelope, r: Registry, id: Id, kind: Kind, raw: string, asked: Kind)
    requires Sound(env) && ValidId(id)
    ensures Unwrap(env, r, Wrap(env, id, kind, raw), asked) ==
            if asked != kind || !IsRaw(kind, raw) then Err(InvalidHandle) else Owner(r, id, raw)
  {
    var parts := Parts(env, id, kind, raw);
    var mac := env.mac(JoinDots(parts));
    var fields := parts + [mac];
    assert AllDotless(fields) && env.decode(env.encode(raw)) == raw;
    JoinSnoc(parts, mac);
    FieldsOfJoin(fields);
    assert fields[..4] == parts;
    if IsRaw(kind, raw) {
      JoinLength(fields, 217);
    }
    assert parts[0] + "." <= JoinDots(parts);
    assert "hs1." <= Wrap(env, id, kind, raw);
  }

  /** A raw handle belongs to the legacy generation or to nobody. */
  lemma RawHandle(env: Envelope, r: Registry, kind: Kind, raw: string, asked: Kind)
    requires IsRaw(kind, raw)
    ensures Unwrap(env, r, raw, asked) ==
            if asked != kind || r.legacyOwner.None? then Err(OwnerUnknown) else Owner(r, r.legacyOwner.value, raw)
  {
    assert raw[..4][3] == '_';
    assert raw[0] == kind.Name()[0] by { assert raw[0] == raw[..4][0]; }
  }

  /** What lies between dots has none, and put together again gives the text back. */
  lemma {:induction false} FieldsSplit(s: string)
    ensures AllDotless(Fields(s)) && JoinDots(Fields(s)) == s && Fields(s) != []
    decreases |s|
  {
    var i := FirstDot(s);
    if i < |s| {
      FieldsSplit(s[i + 1..]);
      assert s == s[..i] + "." + s[i + 1..];
      assert Fields(s)[1..] == Fields(s[i + 1..]);
      assert Dotless(s[..i]);
    }
  }

  /** The text names a generation and a handle of this kind, with this router's own digest over both. */
  ghost predicate Authentic(env: Envelope, value: string, kind: Kind, id: Id, encoded: string) {
    var signed := ["hs1", id, kind.Name(), encoded];
    && id != "" && encoded != "" && Dotless(id) && Dotless(encoded)
    && value == JoinDots(signed + [env.mac(JoinDots(signed))]) && |value| <= MAX_HANDLE
    && IsRaw(kind, env.decode(encoded))
  }

  lemma AuthenticFields(env: Envelope, value: string, kind: Kind, id: Id, encoded: string)
    requires Sound(env) && Authentic(env, value, kind, id, encoded)
    ensures var signed := ["hs1", id, kind.Name(), encoded];
            Fields(value) == signed + [env.mac(JoinDots(signed))] && Fields(value)[..4] == signed
  {
    var signed := ["hs1", id, kind.Name(), encoded];
    FieldsOfJoin(signed + [env.mac(JoinDots(signed))]);
  }

  lemma AcceptedIsAuthentic(env: Envelope, r: Registry, value: string, kind: Kind)
    requires "hs1." <= value && Unwrap(env, r, value, kind) != Err(InvalidHandle)
    ensures |Fields(value)| == 5 && Authentic(env, value, kind, Fields(value)[1], Fields(value)[3])
    ensures Unwrap(env, r, value, kind) == Owner(r, Fields(value)[1], env.decode(Fields(value)[3]))
  {
    var f := Fields(value);
    FieldsSplit(value);
    var signed := ["hs1", f[1], kind.Name(), f[3]];
    assert f[..4] == signed && f == signed + [f[4]];
  }

  /**
    Nothing else is taken for a wrapped handle.  Of the texts that begin like one, the router accepts
    exactly those that carry its own digest over the owner, this kind and a raw handle of this kind,
    within the length limit: it then resolves that owner, and refuses every other text as invalid.
   */
  lemma AcceptedIff(env: Envelope, r: Registry, value: string, kind: Kind)
    requires Sound(env) && "hs1." <= value
    ensures Unwrap(env, r, value, kind) != Err(InvalidHandle) <==>
            exists id, encoded :: Authentic(env, value, kind, id, encoded)
    ensures forall id, encoded | Authentic(env, value, kind, id, encoded) ::
              Unwrap(env, r, value, kind) == Owner(r, id, env.decode(encoded))
  {
    forall id, encoded | Authentic(env, value, kind, id, encoded)
      ensures Unwrap(env, r, value, kind) == Owner(r, id, env.decode(encoded))
    {
      AuthenticFields(env, value, kind, id, encoded);
    }
    if Unwrap(env, r, value, kind) != Err(InvalidHandle) {
      AcceptedIsAuthentic(env, r, value, kind);
    }
  }

  /** What neither begins like a wrapped handle nor is a raw one belongs to nobody. */
  lemma OtherTextsAreNobodys(env: Envelope, r: Registry, value: string, kind: Kind)
    requires !("hs1." <= value) && !IsRaw(kind, value)
    ensures Unwrap(env, r, value, kind) == Err(OwnerUnknown)
  {
    if IsRaw(App, value) || IsRaw(Rec, value) {
      assert value[0] == value[..4][0];
    }
  }

  /** Wherever the router has gone meanwhile, a handle still resolves to the generation that issued it. */
  lemma HandleFollowsItsOwner(env: Envelope, before: seq<Event>, after: seq<Event>, id: Id, kind: Kind, raw: string)
    requires Sound(env) && ValidId(id) && IsRaw(kind, raw)
    requires Resolves(Run(before), id) && NeverRetires(after, id)
    ensures var r := Unwrap(env, Run(before + after).mem, Wrap(env, id, kind, raw), kind);
            r.Ok? && r.value.0.id == id && r.value.1 == raw
  {
    OwnerKeepsResolving(before, after, id);
    WrappedHandle(env, Run(before + after).mem, id, kind, raw, kind);
  }

  /**
    So a handle that was issued for a request in flight keeps resolving, across every later run that
    does not retire its generation, if failed writes were read back up to then.
   */
  lemma IssuedHandleFollowsItsOwner(env: Envelope, before: seq<Event>, after: seq<Event>, request: nat, kind: Kind, raw: string)
    requires Sound(env) && IsRaw(kind, raw)
    requires ReadBacksSucceed(before) && request in Run(before).live && ValidId(Run(before).live[request])
    requires NeverRetires(after, Run(before).live[request])
    ensures var id := Run(before).live[request];
            var r := Unwrap(env, Run(before + after).mem, Wrap(env, id, kind, raw), kind);
            r.Ok? && r.value.0.id == id && r.value.1 == raw
  {
    LiveOwnerResolves(before, request);
    HandleFollowsItsOwner(env, before, after, Run(before).live[request], kind, raw);
  }
}
