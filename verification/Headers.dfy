/**
 HTTP headers: a map from canonical keys to value lists, and the header copying of the proxy. Go
 ranges over the source map in an arbitrary order.
 */
module Headers {
  type Header = map<string, seq<string>>

  const AUDIT_CLIENT_ID: string := "X-Audit-Client-Id"

  /** Hop-by-hop headers, the client's credentials, and the internal audit header. */
  const EXCLUDED: set<string> := {
    "Connection", "Keep-Alive", "Proxy-Authenticate", "Proxy-Authorization", "Te", "Trailer",
    "Transfer-Encoding", "Upgrade", "Authorization", AUDIT_CLIENT_ID
  }

  predicate IsLower(c: char) {
    'a' <= c <= 'z'
  }

  predicate IsUpper(c: char) {
    'A' <= c <= 'Z'
  }

  /** The characters of an HTTP token, RFC 7230 section 3.2.6. */
  predicate IsTokenChar(c: char) {
    IsLower(c) || IsUpper(c) || '0' <= c <= '9' || c in "!#$%&'*+-.^_`|~"
  }

  function ToUpper(c: char): char {
    if IsLower(c) then 'A' + (c - 'a') else c
  }

  function ToLower(c: char): char {
    if IsUpper(c) then 'a' + (c - 'A') else c
  }

  function CanonicalAt(key: string, i: nat): char
    requires i < |key|
  {
    if i == 0 || key[i - 1] == '-' then ToUpper(key[i]) else ToLower(key[i])
  }

  /** textproto.CanonicalMIMEHeaderKey: upper case at the start and after a hyphen, lower case elsewhere. */
  function CanonicalKey(key: string): string {
    if exists c | c in key :: !IsTokenChar(c) then key
    else seq(|key|, i requires 0 <= i < |key| => CanonicalAt(key, i))
  }

  /** Header names are compared without regard to case, RFC 7230 section 3.2. */
  function Lower(s: string): string {
    seq(|s|, i requires 0 <= i < |s| => ToLower(s[i]))
  }

  predicate IsToken(s: string) {
    forall i | 0 <= i < |s| :: IsTokenChar(s[i])
  }

  lemma SameLetter(a: char, b: char)
    requires ToLower(a) == ToLower(b)
    ensures ToUpper(a) == ToUpper(b) && (IsTokenChar(a) <==> IsTokenChar(b)) && (a == '-' <==> b == '-')
  {
  }

  lemma SameCanonicalAt(a: string, b: string, i: nat)
    requires Lower(a) == Lower(b) && i < |a|
    ensures i < |b| && CanonicalAt(a, i) == CanonicalAt(b, i) && (IsTokenChar(a[i]) <==> IsTokenChar(b[i]))
  {
    assert |a| == |Lower(a)| == |Lower(b)| == |b|;
    assert Lower(a)[i] == Lower(b)[i];
    SameLetter(a[i], b[i]);
    if i > 0 {
      assert Lower(a)[i - 1] == Lower(b)[i - 1];
      SameLetter(a[i - 1], b[i - 1]);
    }
  }

  /** Names that differ only in case have the same canonical form. */
  lemma CanonicalIgnoresCase(a: string, b: string)
    requires Lower(a) == Lower(b) && IsToken(a)
    ensures IsToken(b) && CanonicalKey(a) == CanonicalKey(b)
  {
    assert |a| == |Lower(a)| == |Lower(b)| == |b|;
    forall i: nat | i < |a| ensures CanonicalAt(a, i) == CanonicalAt(b, i) {
      SameCanonicalAt(a, b, i);
    }
    forall i | 0 <= i < |b| ensures IsTokenChar(b[i]) {
      SameCanonicalAt(a, b, i);
    }
    assert forall c | c in a :: IsTokenChar(c);
    assert forall c | c in b :: IsTokenChar(c);
  }

  /** Each word of the name starts with a capital and goes on without one. */
  predicate IsTitledAt(name: string, i: nat)
    requires i < |name|
  {
    IsTokenChar(name[i]) && if i == 0 || name[i - 1] == '-' then !IsLower(name[i]) else !IsUpper(name[i])
  }

  lemma TitledStays(name: string, i: nat)
    requires i < |name| && IsTitledAt(name, i)
    ensures CanonicalAt(name, i) == name[i] && IsTokenChar(name[i])
  {
  }

  lemma ShortNameIsTitledAt(name: string, i: nat)
    requires name in {"Connection", "Keep-Alive", "Te", "Trailer", "Upgrade"} && i < |name|
    ensures IsTitledAt(name, i)
  {
  }

  lemma LongNameIsTitledAt(name: string, i: nat)
    requires name in {"Proxy-Authenticate", "Proxy-Authorization", "Transfer-Encoding", "Authorization", AUDIT_CLIENT_ID}
    requires i < |name|
    ensures IsTitledAt(name, i)
  {
  }

  lemma TitledIsCanonical(name: string)
    requires forall i: nat {:trigger IsTitledAt(name, i)} | i < |name| :: IsTitledAt(name, i)
    ensures IsToken(name) && CanonicalKey(name) == name
  {
    forall i: nat | i < |name| ensures CanonicalAt(name, i) == name[i] {
      assert IsTitledAt(name, i);
      TitledStays(name, i);
    }
    forall i | 0 <= i < |name| ensures IsTokenChar(name[i]) {
      assert IsTitledAt(name, i);
      TitledStays(name, i);
    }
    assert forall c | c in name :: IsTokenChar(c);
  }

  lemma ExcludedNameIsCanonical(name: string)
    requires name in EXCLUDED
    ensures IsToken(name) && CanonicalKey(name) == name
  {
    forall i: nat | i < |name| ensures IsTitledAt(name, i) {
      if name in {"Connection", "Keep-Alive", "Te", "Trailer", "Upgrade"} {
        ShortNameIsTitledAt(name, i);
      } else {
        LongNameIsTitledAt(name, i);
      }
    }
    TitledIsCanonical(name);
  }

  lemma LowerMeans(name: string, lower: string)
    requires |name| == |lower| && forall i | 0 <= i < |name| :: ToLower(name[i]) == lower[i]
    ensures Lower(name) == lower
  {
  }

  lemma ExcludedInLowerCase()
    ensures Lower("Connection") == "connection" && Lower("Keep-Alive") == "keep-alive" && Lower("Te") == "te"
    ensures Lower("Trailer") == "trailer" && Lower("Upgrade") == "upgrade" && Lower("Authorization") == "authorization"
    ensures Lower("Transfer-Encoding") == "transfer-encoding" && Lower(AUDIT_CLIENT_ID) == "x-audit-client-id"
    ensures Lower("Proxy-Authenticate") == "proxy-authenticate" && Lower("Proxy-Authorization") == "proxy-authorization"
  {
    LowerMeans("Connection", "connection");
    LowerMeans("Keep-Alive", "keep-alive");
    LowerMeans("Te", "te");
    LowerMeans("Trailer", "trailer");
    LowerMeans("Upgrade", "upgrade");
    LowerMeans("Authorization", "authorization");
    LowerMeans("Transfer-Encoding", "transfer-encoding");
    LowerMeans(AUDIT_CLIENT_ID, "x-audit-client-id");
    LowerMeans("Proxy-Authenticate", "proxy-authenticate");
    LowerMeans("Proxy-Authorization", "proxy-authorization");
  }

  /** A canonical key that is an excluded name in some letter case is that name itself. */
  lemma OnlyExactNames(key: string, name: string)
    requires CanonicalKey(key) == key && name in EXCLUDED && Lower(key) == Lower(name)
    ensures key == name
  {
    ExcludedNameIsCanonical(name);
    CanonicalIgnoresCase(name, key);
  }

  /** The keys of a header that the net/http server or client has read. */
  ghost predicate IsCanonical(h: Header) {
    forall key | key in h :: CanonicalKey(key) == key
  }

  function Values(h: Header, key: string): seq<string> {
    if key in h then h[key] else []
  }

  /** http.Header.Get with a canonical key: the first value, or the empty string. */
  function Get(h: Header, key: string): string {
    if Values(h, key) == [] then "" else Values(h, key)[0]
  }

  /** With several values the first one counts; without any there is the empty string. */
  lemma FirstValueCounts(h: Header, key: string, value: string, more: seq<string>)
    ensures Get(h[key := [value] + more], key) == value
    ensures Get(h[key := []], key) == Get(h - {key}, key) == ""
  {
  }

  function Set(h: Header, key: string, value: string): Header {
    h[key := [value]]
  }

  /** http.Header.Add canonicalises the key. */
  function Add(h: Header, key: string, value: string): Header {
    h[CanonicalKey(key) := Values(h, CanonicalKey(key)) + [value]]
  }

  /** The keys that copying carries over: not excluded, and with at least one value. */
  predicate Carried(excluded: set<string>, src: Header, key: string) {
    key in src && key !in excluded && src[key] != []
  }

  /** The destination after copying: its own values of each key, then the source's, in order. */
  function CopiedBut(excluded: set<string>, dst: Header, src: Header): (r: Header)
    ensures forall key :: key in r <==> key in dst || Carried(excluded, src, key)
    ensures forall key :: Values(r, key) == Values(dst, key) + if Carried(excluded, src, key) then src[key] else []
  {
    map key | key in dst.Keys + src.Keys && (key in dst || Carried(excluded, src, key)) ::
      Values(dst, key) + if Carried(excluded, src, key) then src[key] else []
  }

  function Copied(dst: Header, src: Header): Header {
    CopiedBut(EXCLUDED, dst, src)
  }

  lemma CopiedNothing(excluded: set<string>, dst: Header)
    ensures CopiedBut(excluded, dst, map[]) == dst
  {
    forall key | key in dst ensures CopiedBut(excluded, dst, map[])[key] == dst[key] {
      assert Values(CopiedBut(excluded, dst, map[]), key) == dst[key] + [];
    }
  }

  /** Copying adds nothing to the values of an excluded key, and all values of every other key. */
  lemma CopiedValues(excluded: set<string>, dst: Header, src: Header, key: string)
    ensures var r := CopiedBut(excluded, dst, src);
            && (key in excluded ==> Values(r, key) == Values(dst, key))
            && (key !in excluded && key !in dst ==> Values(r, key) == Values(src, key))
  {
    assert [] + Values(src, key) == Values(src, key);
  }

  lemma NothingExcluded(excluded: set<string>, src: Header)
    ensures CopiedBut(excluded, map[], src).Keys !! excluded
  {
  }

  lemma SameHeader(a: Header, b: Header)
    requires forall key :: key in a <==> key in b
    requires forall key | key in a :: a[key] == b[key]
    ensures a == b
  {
  }

  lemma CopiedOneMore(excluded: set<string>, dst: Header, done: Header, key: string, values: seq<string>)
    requires key !in done
    ensures CopiedBut(excluded, dst, done[key := values])
         == if key in excluded || values == [] then CopiedBut(excluded, dst, done)
            else CopiedBut(excluded, dst, done)[key := Values(CopiedBut(excluded, dst, done), key) + values]
  {
    var more := done[key := values];
    var narrow, wide := CopiedBut(excluded, dst, done), CopiedBut(excluded, dst, more);
    OtherKeysAgree(excluded, dst, done, key, values);
    assert !Carried(excluded, done, key);
    assert Values(narrow, key) == Values(dst, key) + [];
    assert Values(dst, key) + [] == Values(dst, key);
    if key in excluded || values == [] {
      assert !Carried(excluded, more, key);
      assert Values(wide, key) == Values(narrow, key);
      SameHeader(wide, narrow);
    } else {
      assert Carried(excluded, more, key);
      assert wide[key] == Values(wide, key) == Values(narrow, key) + values;
      SameHeader(wide, narrow[key := Values(narrow, key) + values]);
    }
  }

  lemma OtherKeysAgree(excluded: set<string>, dst: Header, done: Header, key: string, values: seq<string>)
    requires key !in done
    ensures var narrow, wide := CopiedBut(excluded, dst, done), CopiedBut(excluded, dst, done[key := values]);
            forall k | k != key :: (k in wide <==> k in narrow) && (k in wide ==> wide[k] == narrow[k])
  {
  }

  /** A header value that methods update in place. */
  class HeaderMap {
    var fields: Header

    constructor (initial: Header)
      ensures fields == initial
    {
      fields := initial;
    }

    method SetField(key: string, value: string)
      modifies this
      ensures fields == Set(old(fields), key, value)
    {
      fields := fields[key := [value]];
    }

    method DelField(key: string)
      modifies this
      ensures fields == old(fields) - {key}
    {
      fields := fields - {key};
    }

    method AddField(key: string, value: string)
      modifies this
      ensures fields == Add(old(fields), key, value)
    {
      var k := CanonicalKey(key);
      if k in fields {
        fields := fields[k := fields[k] + [value]];
      } else {
        assert [] + [value] == [value];
        fields := fields[k := [value]];
      }
    }

    /** Adds the values of one key, in order. */
    method AddAll(key: string, values: seq<string>)
      requires CanonicalKey(key) == key
      modifies this
      ensures fields == if values == [] then old(fields) else old(fields)[key := Values(old(fields), key) + values]
    {
      for i := 0 to |values|
        invariant fields == if i == 0 then old(fields) else old(fields)[key := Values(old(fields), key) + values[..i]]
      {
        AddField(key, values[i]);
        assert [] + [values[i]] == [values[i]];
        assert Values(old(fields), key) + values[..i] + [values[i]] == Values(old(fields), key) + (values[..i] + [values[i]]);
        assert values[..i + 1] == values[..i] + [values[i]];
      }
      assert values[..|values|] == values;
    }

    /** `copyHeaders`: the result is the same for every order in which the source is visited. */
    method CopyFrom(src: Header)
      requires IsCanonical(src)
      modifies this
      ensures fields == Copied(old(fields), src)
    {
      CopyAllBut(EXCLUDED, src);
    }

    /** Go visits the source in an arbitrary order. */
    method CopyAllBut(excluded: set<string>, src: Header)
      requires IsCanonical(src)
      modifies this
      ensures fields == CopiedBut(excluded, old(fields), src)
    {
      ghost var dst := fields;
      var todo := src.Keys;
      ghost var done: Header := map[];
      CopiedNothing(excluded, dst);
      while todo != {}
        invariant todo <= src.Keys
        invariant done == src - todo
        invariant fields == CopiedBut(excluded, dst, done)
      {
        var key :| key in todo;
        CopiedOneMore(excluded, dst, done, key, src[key]);
        todo := todo - {key};
        done := done[key := src[key]];
        if key !in excluded {
          AddAll(key, src[key]);
        }
      }
      assert done == src;
    }
  }
}
