/**
 * The server handshake `AuthService.checkSignature` of
 * src/auth/service/auth.service.ts: the app token, the timestamp and the nonce
 * are sorted, concatenated and hashed with SHA-1, and the request is answered
 * with its `echostr` only when the digest equals the supplied signature.
 *
 * SHA-1 (FIPS 180-4, hex digest) is a parameter `sha1Hex`; sorting uses
 * JavaScript's default order on strings, compared character by character.
 */
module Signature {

  /** `a` sorts no later than `b`: lexicographic order, a proper prefix first. */
  predicate AtMost(a: string, b: string)
  {
    a == [] || (b != [] && (a[0] < b[0] || (a[0] == b[0] && AtMost(a[1..], b[1..]))))
  }

  lemma {:induction false} AtMostTotal(a: string, b: string)
    ensures AtMost(a, b) || AtMost(b, a)
  {
    if a != [] && b != [] && a[0] == b[0] {
      AtMostTotal(a[1..], b[1..]);
    }
  }

  lemma {:induction false} AtMostReflexive(a: string)
    ensures AtMost(a, a)
  {
    if a != [] {
      AtMostReflexive(a[1..]);
    }
  }

  lemma {:induction false} AtMostAntisymmetric(a: string, b: string)
    requires AtMost(a, b) && AtMost(b, a)
    ensures a == b
  {
    if a != [] {
      AtMostAntisymmetric(a[1..], b[1..]);
      assert a == [a[0]] + a[1..] && b == [b[0]] + b[1..];
    }
  }

  lemma {:induction false} AtMostTransitive(a: string, b: string, c: string)
    requires AtMost(a, b) && AtMost(b, c)
    ensures AtMost(a, c)
  {
    if a != [] && a[0] == b[0] && b[0] == c[0] {
      AtMostTransitive(a[1..], b[1..], c[1..]);
    }
  }

  predicate Sorted(s: seq<string>)
  {
    forall i, j :: 0 <= i < j < |s| ==> AtMost(s[i], s[j])
  }

  /** `x` inserted into the sorted `s` before the first element it does not follow. */
  function Insert(x: string, s: seq<string>): (r: seq<string>)
    requires Sorted(s)
    ensures Sorted(r) && multiset(r) == multiset(s) + multiset{x}
  {
    if s == [] then [x]
    else if AtMost(x, s[0]) then
      forall j | 0 <= j < |s| ensures AtMost(x, s[j]) {
        if j > 0 { AtMostTransitive(x, s[0], s[j]); }
      }
      [x] + s
    else
      var rest := Insert(x, s[1..]);
      AtMostTotal(x, s[0]);
      assert s == [s[0]] + s[1..];
      forall k | 0 <= k < |rest| ensures AtMost(s[0], rest[k]) {
        assert rest[k] in multiset(rest);
        if rest[k] != x {
          assert rest[k] in multiset(s[1..]);
          var j :| 0 <= j < |s[1..]| && s[1..][j] == rest[k];
          assert s[j + 1] == rest[k];
        }
      }
      [s[0]] + rest
  }

  /** The array `sort()` of the handshake: a sorted rearrangement of its input. */
  function Sort(s: seq<string>): (r: seq<string>)
    ensures Sorted(r) && multiset(r) == multiset(s)
  {
    if s == [] then []
    else
      assert s == [s[0]] + s[1..];
      Insert(s[0], Sort(s[1..]))
  }

  /** The first element of a non-empty sorted sequence sorts no later than any of its elements. */
  lemma SortedHeadFirst(a: seq<string>, x: string)
    requires Sorted(a) && x in multiset(a)
    ensures AtMost(a[0], x)
  {
    var i :| 0 <= i < |a| && a[i] == x;
    if i == 0 { AtMostReflexive(x); }
  }

  lemma MultisetTails(a: seq<string>, b: seq<string>)
    requires a != [] && b != [] && a[0] == b[0] && multiset(a) == multiset(b)
    ensures multiset(a[1..]) == multiset(b[1..])
  {
    assert a == [a[0]] + a[1..] && b == [b[0]] + b[1..];
    assert multiset(a[1..]) == multiset(a) - multiset{a[0]};
    assert multiset(b[1..]) == multiset(b) - multiset{b[0]};
  }

  /** Two sorted sequences holding the same strings are the same sequence. */
  lemma {:induction false} SortedUnique(a: seq<string>, b: seq<string>)
    requires Sorted(a) && Sorted(b) && multiset(a) == multiset(b)
    ensures a == b
  {
    if a != [] {
      assert a[0] in multiset(b);
      assert b != [];
      assert b[0] in multiset(a);
      SortedHeadFirst(a, b[0]);
      SortedHeadFirst(b, a[0]);
      AtMostAntisymmetric(a[0], b[0]);
      MultisetTails(a, b);
      SortedUnique(a[1..], b[1..]);
      assert a == [a[0]] + a[1..] && b == [b[0]] + b[1..];
    }
  }

  /** The array `join('')`: the strings one after another. */
  function Join(s: seq<string>): string
  {
    if s == [] then "" else s[0] + Join(s[1..])
  }

  /** The string that is hashed: the three values sorted and concatenated. */
  function SignedString(token: string, timestamp: string, nonce: string): string
  {
    Join(Sort([token, timestamp, nonce]))
  }

  /** The query parameters of the handshake request. */
  datatype CheckSignatureDto = CheckSignatureDto(signature: string, timestamp: string, nonce: string, echostr: string)

  /** The handler's answer: the echo string, or `false`. */
  datatype Verdict = Echo(echostr: string) | Rejected

  /** `checkSignature`, with the configured app token and the SHA-1 hex digest as parameters. */
  function CheckSignature(token: string, dto: CheckSignatureDto, sha1Hex: string -> string): (v: Verdict)
    ensures v.Echo? <==> sha1Hex(SignedString(token, dto.timestamp, dto.nonce)) == dto.signature
    ensures v.Echo? ==> v.echostr == dto.echostr
  {
    if sha1Hex(SignedString(token, dto.timestamp, dto.nonce)) == dto.signature then Echo(dto.echostr)
    else Rejected
  }

  /** The hashed string does not depend on the order in which the three values are given. */
  lemma SignedStringSymmetric(a: string, b: string, c: string, x: string, y: string, z: string)
    requires multiset([a, b, c]) == multiset([x, y, z])
    ensures SignedString(a, b, c) == SignedString(x, y, z)
  {
    SortedUnique(Sort([a, b, c]), Sort([x, y, z]));
  }

  /** Permuting token, timestamp and nonce never changes the verdict. */
  lemma CheckSignaturePermutationInvariant(token: string, dto: CheckSignatureDto, sha1Hex: string -> string,
                                           token': string, timestamp': string, nonce': string)
    requires multiset([token', timestamp', nonce']) == multiset([token, dto.timestamp, dto.nonce])
    ensures CheckSignature(token', dto.(timestamp := timestamp', nonce := nonce'), sha1Hex)
         == CheckSignature(token, dto, sha1Hex)
  {
    SignedStringSymmetric(token', timestamp', nonce', token, dto.timestamp, dto.nonce);
  }
}
