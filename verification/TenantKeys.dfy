// Tenant identifiers and inbox keys: one canonical form, used by the consumer, the
// tenant context and the database session alike.

module TenantKeys {
  import opened Messaging

  // [a-z0-9_-]
  predicate Allowed(c: char) {
    'a' <= c <= 'z' || '0' <= c <= '9' || c == '_' || c == '-'
  }

  // String.prototype.toLowerCase, as far as the filter after it can tell.  Besides
  // A-Z, two characters have a lower-case form that contains a letter a-z: the
  // Kelvin sign and the dotted capital I.  Every other character either is kept as
  // it is or has a form the filter drops, just like the character itself.
  function LowerChar(c: char): string {
    if 'A' <= c <= 'Z' then [(c as int + 32) as char]
    else if c == '\U{212A}' then "k"
    else if c == '\U{0130}' then ['i', '\U{0307}']
    else [c]
  }

  function Lower(s: string): string {
    if s == "" then "" else LowerChar(s[0]) + Lower(s[1..])
  }

  // .replace(/[^a-z0-9_-]/g, '')
  function Keep(s: string): string {
    if s == "" then "" else (if Allowed(s[0]) then [s[0]] else "") + Keep(s[1..])
  }

  // What String.prototype.trim takes off.
  predicate IsSpace(c: char) {
    c in "\t\n\r \U{000B}\U{000C}\U{00A0}\U{1680}\U{2028}\U{2029}\U{202F}\U{205F}\U{3000}\U{FEFF}"
    || '\U{2000}' <= c <= '\U{200A}'
  }

  function TrimLeft(s: string): string {
    if s != "" && IsSpace(s[0]) then TrimLeft(s[1..]) else s
  }

  function TrimRight(s: string): string {
    if s != "" && IsSpace(s[|s| - 1]) then TrimRight(s[..|s| - 1]) else s
  }

  function Trim(s: string): string { TrimRight(TrimLeft(s)) }

  function Sanitize(s: string): string { Keep(Lower(Trim(s))) }

  predicate Canonical(s: string) { forall i :: 0 <= i < |s| ==> Allowed(s[i]) }

  // ---------------------------------------------------------------- canonical form

  lemma {:induction false} KeepCanonical(s: string)
    ensures Canonical(Keep(s))
  {
    if s == "" {
    } else {
      KeepCanonical(s[1..]);
    }
  }

  lemma {:induction false} KeepFixes(s: string)
    requires Canonical(s)
    ensures Keep(s) == s
  {
    if s == "" {
    } else {
      KeepFixes(s[1..]);
    }
  }

  lemma {:induction false} LowerFixes(s: string)
    requires Canonical(s)
    ensures Lower(s) == s
  {
    if s == "" {
    } else {
      assert Allowed(s[0]);
      LowerFixes(s[1..]);
    }
  }

  lemma TrimFixes(s: string)
    requires Canonical(s)
    ensures Trim(s) == s
  {
    if s != "" {
      assert Allowed(s[0]) && Allowed(s[|s| - 1]);
    }
  }

  // A sanitised identifier is canonical, and canonical ones are exactly those that
  // sanitising leaves alone.  So the consumer, TenantContext.run and the session
  // variable of the row-level-security subscriber all see the same tenant.
  lemma SanitizeIdempotent(s: string)
    ensures Canonical(Sanitize(s))
    ensures Sanitize(Sanitize(s)) == Sanitize(s)
    ensures Keep(Sanitize(s)) == Sanitize(s)
    ensures Sanitize(s) == s <==> Canonical(s)
  {
    KeepCanonical(Lower(Trim(s)));
    var t := Sanitize(s);
    TrimFixes(t);
    LowerFixes(t);
    KeepFixes(t);
    if Canonical(s) {
      TrimFixes(s);
      LowerFixes(s);
      KeepFixes(s);
    }
  }

  // ---------------------------------------------------------------- what sanitising does to each character

  // The contribution of one character: letters in lower case, digits, '_' and '-' as
  // they are, the two foreign characters whose lower case holds a letter, else nothing.
  function Image(c: char): string {
    if 'a' <= c <= 'z' || '0' <= c <= '9' || c == '_' || c == '-' then [c]
    else if 'A' <= c <= 'Z' then [(c as int + 32) as char]
    else if c == '\U{212A}' then "k"
    else if c == '\U{0130}' then "i"
    else ""
  }

  function Images(s: string): string {
    if s == "" then "" else Image(s[0]) + Images(s[1..])
  }

  lemma {:induction false} KeepJoins(a: string, b: string)
    ensures Keep(a + b) == Keep(a) + Keep(b)
  {
    if a == "" {
      assert a + b == b;
    } else {
      hide Allowed;
      assert (a + b)[0] == a[0] && (a + b)[1..] == a[1..] + b;
      KeepJoins(a[1..], b);
      var first := if Allowed(a[0]) then [a[0]] else "";
      assert Keep(a + b) == first + Keep(a[1..] + b) && Keep(a) == first + Keep(a[1..]);
    }
  }

  lemma KeepLowerChar(c: char)
    ensures Keep(LowerChar(c)) == Image(c)
  {
    var s := LowerChar(c);
    assert |s| == 1 ==> s[1..] == "";
    if c == '\U{0130}' {
      assert s[1..] == ['\U{0307}'] && s[1..][1..] == "";
      assert Keep(s[1..]) == "" + Keep(s[1..][1..]);
      assert Keep(s) == ['i'] + Keep(s[1..]);
    }
  }

  lemma {:induction false} KeepLower(s: string)
    ensures Keep(Lower(s)) == Images(s)
  {
    if s == "" {
    } else {
      KeepLower(s[1..]);
      KeepJoins(LowerChar(s[0]), Lower(s[1..]));
      KeepLowerChar(s[0]);
    }
  }

  lemma {:induction false} ImagesJoin(a: string, b: string)
    ensures Images(a + b) == Images(a) + Images(b)
  {
    if a == "" {
      assert a + b == b;
    } else {
      assert (a + b)[1..] == a[1..] + b;
      ImagesJoin(a[1..], b);
    }
  }

  lemma {:induction false} TrimLeftImages(s: string)
    ensures Images(TrimLeft(s)) == Images(s)
  {
    if s == "" {
    } else if IsSpace(s[0]) {
      TrimLeftImages(s[1..]);
    }
  }

  lemma {:induction false} TrimRightImages(s: string)
    ensures Images(TrimRight(s)) == Images(s)
  {
    if s == "" {
    } else if IsSpace(s[|s| - 1]) {
      var n := |s| - 1;
      TrimRightImages(s[..n]);
      hide IsSpace;
      ImagesJoin(s[..n], [s[n]]);
      SpaceHasNoImage(s[n]);
      assert s == s[..n] + [s[n]];
    }
  }

  lemma SpaceHasNoImage(c: char)
    requires IsSpace(c)
    ensures Images([c]) == ""
  {
    assert [c][1..] == "";
  }

  // Sanitising is characterwise: every character gives its image, in order.
  lemma SanitizeIsCharacterwise(s: string)
    ensures Sanitize(s) == Images(s)
  {
    TrimLeftImages(s);
    TrimRightImages(TrimLeft(s));
    KeepLower(Trim(s));
  }

  // In particular an identifier of letters, digits, '_' and '-' keeps its length, and
  // each character but for the case of letters.
  lemma SanitizeKeepsCharacters(s: string)
    requires forall i :: 0 <= i < |s| ==> Allowed(s[i]) || 'A' <= s[i] <= 'Z'
    ensures |Sanitize(s)| == |s|
    ensures forall i :: 0 <= i < |s| ==>
      Sanitize(s)[i] == if 'A' <= s[i] <= 'Z' then (s[i] as int + 32) as char else s[i]
  {
    SanitizeIsCharacterwise(s);
    ImagesOfCanonical(s);
  }

  lemma {:induction false} ImagesOfCanonical(s: string)
    requires forall i :: 0 <= i < |s| ==> Allowed(s[i]) || 'A' <= s[i] <= 'Z'
    ensures |Images(s)| == |s|
    ensures forall i :: 0 <= i < |s| ==>
      Images(s)[i] == if 'A' <= s[i] <= 'Z' then (s[i] as int + 32) as char else s[i]
  {
    if s == "" {
    } else {
      ImagesOfCanonical(s[1..]);
    }
  }

  // Nothing is left of an identifier exactly when none of its characters has an image.
  lemma {:induction false} NothingLeft(s: string)
    ensures Images(s) == "" <==> forall i :: 0 <= i < |s| ==> Image(s[i]) == ""
  {
    if s == "" {
    } else {
      NothingLeft(s[1..]);
      assert s == [s[0]] + s[1..];
    }
  }

  // ---------------------------------------------------------------- inbox keys

  const HANDLER := "SqsConsumerService"

  function InboxKey(tenant: string, eventId: string): string {
    tenant + ":" + eventId + ":" + HANDLER
  }

  function BeforeColon(s: string): string {
    if s == "" || s[0] == ':' then "" else [s[0]] + BeforeColon(s[1..])
  }

  // Read the tenant and the event back out of a key.
  function ParseKey(key: string): (string, string)
    requires |BeforeColon(key)| + |HANDLER| + 2 <= |key|
  {
    var tenant := BeforeColon(key);
    (tenant, key[|tenant| + 1..|key| - |HANDLER| - 1])
  }

  lemma {:induction false} BeforeColonOf(tenant: string, rest: string)
    requires Canonical(tenant)
    ensures BeforeColon(tenant + ":" + rest) == tenant
  {
    var s := tenant + ":" + rest;
    if tenant == "" {
    } else {
      assert Allowed(tenant[0]);
      assert s[1..] == tenant[1..] + ":" + rest;
      BeforeColonOf(tenant[1..], rest);
    }
  }

  // Round trip: event ids may contain any character, ':' included.
  lemma KeyRoundTrip(tenant: string, eventId: string)
    requires Canonical(tenant)
    ensures |BeforeColon(InboxKey(tenant, eventId))| + |HANDLER| + 2 <= |InboxKey(tenant, eventId)|
    ensures ParseKey(InboxKey(tenant, eventId)) == (tenant, eventId)
  {
    var rest := eventId + ":" + HANDLER;
    assert InboxKey(tenant, eventId) == tenant + ":" + rest;
    BeforeColonOf(tenant, rest);
    var key := InboxKey(tenant, eventId);
    assert key[|tenant| + 1..|key| - |HANDLER| - 1] == eventId;
  }

  // Two messages share an inbox key only if they carry the same tenant and event.
  lemma KeysInjective(t1: string, e1: string, t2: string, e2: string)
    requires Canonical(t1) && Canonical(t2)
    ensures InboxKey(t1, e1) == InboxKey(t2, e2) <==> (t1 == t2 && e1 == e2)
  {
    KeyRoundTrip(t1, e1);
    KeyRoundTrip(t2, e2);
  }

  // ---------------------------------------------------------------- the tenant context

  // TenantContext: run() installs a store for the length of its callback, and
  // scopes nest.  The innermost store is the last element.
  class TenantContext {
    var stores: seq<string>

    constructor ()
      ensures stores == []
    {
      stores := [];
    }

    // Entering run(): the store to install, or the error that run() throws.
    method Enter(tenantId: string) returns (r: Result<string>)
      modifies this
      ensures Sanitize(tenantId) == "" ==> r.Err? && stores == old(stores)
      ensures Sanitize(tenantId) != "" ==> r == Ok(Sanitize(tenantId)) && stores == old(stores) + [Sanitize(tenantId)]
    {
      var sanitized := Keep(Lower(Trim(tenantId)));
      if sanitized == "" {
        return Err("Tenant context cannot be resolved with empty or invalid identifier.");
      }
      stores := stores + [sanitized];
      r := Ok(sanitized);
    }

    // The callback of the innermost run() has returned.
    method Leave()
      requires stores != []
      modifies this
      ensures stores == old(stores)[..|old(stores)| - 1]
    {
      stores := stores[..|stores| - 1];
    }

    method GetTenantId() returns (r: Result<string>)
      ensures r.Ok? <==> stores != [] && stores[|stores| - 1] != ""
      ensures r.Ok? ==> r.value == stores[|stores| - 1]
    {
      if stores == [] || stores[|stores| - 1] == "" {
        return Err("Tenant isolation breach: no active tenant context was set.");
      }
      r := Ok(stores[|stores| - 1]);
    }
  }
}
