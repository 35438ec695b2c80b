/** SRP-6a as the escrow client runs it, against the server of section 2.6 of RFC 5054. */
module Srp {
  import opened Wrappers
  import opened Codec
  import opened KeyVault

  function Pow(b: int, e: nat): int { if e == 0 then 1 else b * Pow(b, e - 1) }

  /** Python's pow(b, e, n): never negative for a positive modulus. */
  function PowMod(b: int, e: nat, n: nat): nat
    requires n > 0
  {
    Pow(b, e) % n
  }

  ghost predicate Cong(a: int, b: int, n: nat) {
    exists q: int :: Diff(a, b, n, q)
  }

  predicate Diff(a: int, b: int, n: nat, q: int) { a == b + q * n }

  lemma CongMod(a: int, n: nat)
    requires n > 0
    ensures Cong(a % n, a, n)
  {
    assert a % n == a + (-(a / n)) * n;
    assert Diff(a % n, a, n, -(a / n));
  }

  lemma ModOfCong(a: int, b: int, n: nat)
    requires n > 0 && Cong(a, b, n)
    ensures a % n == b % n
  {
    var q :| Diff(a, b, n, q);
    SameRemainder(a, b, n, q);
  }

  lemma SameRemainder(a: int, b: int, n: nat, q: int)
    requires n > 0 && a == b + q * n
    ensures a % n == b % n
  {
    var r, k := b % n, b / n;
    assert a == r + (k + q) * n;
    UniqueRemainder(a, k + q, r, n);
  }

  lemma UniqueRemainder(a: int, k: int, r: int, n: nat)
    requires n > 0 && 0 <= r < n && a == r + k * n
    ensures a % n == r
  {
    var d := a / n - k;
    Times(a / n, k, n);
    Multiple(d, n, r - a % n);
  }

  lemma Times(x: int, y: int, n: int)
    ensures (x - y) * n == x * n - y * n
  {
  }

  /** The only multiple of `n` nearer to zero than `n` is zero. */
  lemma Multiple(d: int, n: int, m: int)
    requires n > 0 && d * n == m && m < n && -m < n
    ensures m == 0
  {
  }

  lemma CongSym(a: int, b: int, n: nat)
    requires Cong(a, b, n)
    ensures Cong(b, a, n)
  {
    var q :| Diff(a, b, n, q);
    assert Diff(b, a, n, -q);
  }

  lemma CongTrans(a: int, b: int, c: int, n: nat)
    requires Cong(a, b, n) && Cong(b, c, n)
    ensures Cong(a, c, n)
  {
    var q :| Diff(a, b, n, q);
    var p :| Diff(b, c, n, p);
    assert Diff(a, c, n, q + p);
  }

  lemma CongMul(a: int, b: int, c: int, d: int, n: nat)
    requires Cong(a, b, n) && Cong(c, d, n)
    ensures Cong(a * c, b * d, n)
  {
    var q :| Diff(a, b, n, q);
    var p :| Diff(c, d, n, p);
    var r := b * p + q * d + q * p * n;
    calc {
      a * c;
      (b + q * n) * (d + p * n);
      b * d + (b * p) * n + (q * d) * n + (q * p * n) * n;
      b * d + r * n;
    }
    assert Diff(a * c, b * d, n, r);
  }

  lemma CongSub(a: int, b: int, c: int, d: int, n: nat)
    requires Cong(a, b, n) && Cong(c, d, n)
    ensures Cong(a - c, b - d, n)
  {
    var q :| Diff(a, b, n, q);
    var p :| Diff(c, d, n, p);
    assert (q - p) * n == q * n - p * n;
    assert Diff(a - c, b - d, n, q - p);
  }

  lemma {:induction false} CongPow(a: int, b: int, e: nat, n: nat)
    requires Cong(a, b, n)
    ensures Cong(Pow(a, e), Pow(b, e), n)
  {
    if e == 0 {
      assert Diff(1, 1, n, 0);
    } else {
      CongPow(a, b, e - 1, n);
      CongMul(a, b, Pow(a, e - 1), Pow(b, e - 1), n);
    }
  }

  lemma {:induction false} PowAdd(b: int, d: nat, e: nat)
    ensures Pow(b, d + e) == Pow(b, d) * Pow(b, e)
  {
    if d > 0 {
      PowAdd(b, d - 1, e);
      assert b * (Pow(b, d - 1) * Pow(b, e)) == (b * Pow(b, d - 1)) * Pow(b, e);
    }
  }

  lemma {:induction false} PowPower(b: int, d: nat, e: nat)
    ensures Pow(Pow(b, d), e) == Pow(b, d * e)
  {
    if e > 0 {
      PowPower(b, d, e - 1);
      PowAdd(b, d, d * (e - 1));
      assert d + d * (e - 1) == d * e;
    }
  }

  // --- the two secrets ---

  /** S = (B - k g^x)^(a + u x) mod N, with the reductions where the client has them. */
  function ClientSecret(n: nat, g: nat, k: nat, a: nat, x: nat, u: nat, B: nat): nat
    requires n > 0
  {
    var base := (B - (k * PowMod(g, x, n)) % n) % n;
    PowMod(base, a + u * x, n)
  }

  /** v = g^x and B = k v + g^b, modulo N. */
  function Verifier(n: nat, g: nat, x: nat): nat
    requires n > 0
  {
    PowMod(g, x, n)
  }

  function ServerPublic(n: nat, g: nat, k: nat, x: nat, b: nat): nat
    requires n > 0
  {
    (k * Verifier(n, g, x) + PowMod(g, b, n)) % n
  }

  /** S = (A v^u)^b mod N. */
  function ServerSecret(n: nat, g: nat, A: nat, x: nat, u: nat, b: nat): nat
    requires n > 0
  {
    PowMod(A * PowMod(Verifier(n, g, x), u, n), b, n)
  }

  /** Taking k g^x off the server's value leaves g^b. */
  lemma BaseIsPower(n: nat, g: nat, k: nat, x: nat, b: nat)
    requires n > 0
    ensures Cong((ServerPublic(n, g, k, x, b) - (k * PowMod(g, x, n)) % n) % n, Pow(g, b), n)
  {
    var kv, B := k * PowMod(g, x, n), ServerPublic(n, g, k, x, b);
    CongMod(kv + PowMod(g, b, n), n);
    CongMod(kv, n);
    CongSub(B, kv + PowMod(g, b, n), kv % n, kv, n);
    CongMod(Pow(g, b), n);
    assert kv + PowMod(g, b, n) - kv == PowMod(g, b, n);
    CongTrans(B - kv % n, PowMod(g, b, n), Pow(g, b), n);
    CongMod(B - kv % n, n);
    CongTrans((B - kv % n) % n, B - kv % n, Pow(g, b), n);
  }

  lemma ClientIs(n: nat, g: nat, k: nat, a: nat, b: nat, x: nat, u: nat)
    requires n > 0
    ensures Cong(ClientSecret(n, g, k, a, x, u, ServerPublic(n, g, k, x, b)), Pow(g, b * (a + u * x)), n)
  {
    var base := (ServerPublic(n, g, k, x, b) - (k * PowMod(g, x, n)) % n) % n;
    var e := a + u * x;
    BaseIsPower(n, g, k, x, b);
    CongPow(base, Pow(g, b), e, n);
    PowPower(g, b, e);
    CongMod(Pow(base, e), n);
    CongTrans(PowMod(base, e, n), Pow(base, e), Pow(g, b * e), n);
  }

  lemma ServerIs(n: nat, g: nat, a: nat, b: nat, x: nat, u: nat)
    requires n > 0
    ensures Cong(ServerSecret(n, g, PowMod(g, a, n), x, u, b), Pow(g, (a + x * u) * b), n)
  {
    var v := Verifier(n, g, x);
    CongMod(Pow(g, x), n);
    CongPow(v, Pow(g, x), u, n);
    PowPower(g, x, u);
    CongMod(Pow(v, u), n);
    CongTrans(PowMod(v, u, n), Pow(v, u), Pow(g, x * u), n);
    CongMod(Pow(g, a), n);
    CongMul(PowMod(g, a, n), Pow(g, a), PowMod(v, u, n), Pow(g, x * u), n);
    PowAdd(g, a, x * u);
    var m := PowMod(g, a, n) * PowMod(v, u, n);
    CongPow(m, Pow(g, a + x * u), b, n);
    PowPower(g, a + x * u, b);
    CongMod(Pow(m, b), n);
    CongTrans(PowMod(m, b, n), Pow(m, b), Pow(g, (a + x * u) * b), n);
  }

  /** Both sides reach the same secret, whatever the group, the exponents and the scrambler. */
  lemma SecretsAgree(n: nat, g: nat, k: nat, a: nat, b: nat, x: nat, u: nat)
    requires n > 0
    ensures ClientSecret(n, g, k, a, x, u, ServerPublic(n, g, k, x, b))
            == ServerSecret(n, g, PowMod(g, a, n), x, u, b)
  {
    var c := ClientSecret(n, g, k, a, x, u, ServerPublic(n, g, k, x, b));
    var s := ServerSecret(n, g, PowMod(g, a, n), x, u, b);
    ClientIs(n, g, k, a, b, x, u);
    ServerIs(n, g, a, b, x, u);
    Exponents(a, b, x, u);
    CongSym(s, Pow(g, b * (a + u * x)), n);
    CongTrans(c, Pow(g, b * (a + u * x)), s, n);
    ModOfCong(c, s, n);
    Reduced(c, n);
    Reduced(s, n);
  }

  lemma Exponents(a: nat, b: nat, x: nat, u: nat)
    ensures b * (a + u * x) == (a + x * u) * b
  {
  }

  lemma Reduced(s: nat, n: nat)
    ensures 0 < n && s < n ==> s % n == s
  {
  }

  // --- the messages ---

  /** Minimal big-endian bytes, one at least. */
  function Trim(x: nat): bytes { if x < 256 then [x] else Trim(x / 256) + [x % 256] }

  lemma {:induction false} TrimReads(x: nat)
    ensures FromBig(Trim(x)) == x && (Trim(x)[0] == 0 ==> x == 0) && (x < 256 ==> |Trim(x)| == 1)
  {
    if x < 256 {
      assert Trim(x)[..0] == [];
    } else {
      TrimReads(x / 256);
      assert Trim(x)[..|Trim(x)| - 1] == Trim(x / 256);
    }
  }

  /** The group, its byte width, and the hash over concatenated parts. */
  datatype Suite = Suite(n: nat, g: nat, width: nat, hash: bytes -> bytes)

  function Xor(a: bytes, b: bytes): bytes {
    seq(Min(|a|, |b|), i requires 0 <= i < Min(|a|, |b|) => ((a[i] as bv8) ^ (b[i] as bv8)) as byte)
  }

  function K(s: Suite): nat { FromBig(s.hash(Big(s.n, s.width) + Big(s.g, s.width))) }

  function X(s: Suite, user: bytes, password: bytes, salt: bytes): nat {
    FromBig(s.hash(salt + s.hash(user + [58] + password)))
  }

  function U(s: Suite, A: nat, B: nat): nat { FromBig(s.hash(Trim(A) + Trim(B))) }

  function M1(s: Suite, user: bytes, salt: bytes, A: nat, B: nat, key: bytes): bytes {
    s.hash(Xor(s.hash(Big(s.n, s.width)), s.hash(Big(s.g, s.width))) + s.hash(user) + salt + Trim(A) + Trim(B) + key)
  }

  function PublicA(s: Suite, a: nat): nat
    requires s.n > 0
  {
    PowMod(s.g, a, s.n)
  }

  /** The session key and the client's proof. */
  function Process(s: Suite, a: nat, user: bytes, password: bytes, salt: bytes, bPub: bytes): (bytes, bytes)
    requires s.n > 0
  {
    var A, B := PublicA(s, a), FromBig(bPub);
    var S := ClientSecret(s.n, s.g, K(s), a, X(s, user, password, salt), U(s, A, B), B);
    var key := s.hash(Trim(S));
    (key, M1(s, user, salt, A, B, key))
  }

  function ServerProof(s: Suite, aPub: bytes, m1: bytes, key: bytes): bytes { s.hash(aPub + m1 + key) }

  // --- a server of RFC 5054, written out over the hash -----------------------------------------------

  /** What the server keeps of an enrolment: never the password. */
  datatype Record = Record(user: bytes, salt: bytes, v: nat)

  /** v = g^x with x = H(salt | H(user | ":" | password)). */
  function Enrol(s: Suite, user: bytes, password: bytes, salt: bytes): Record
    requires s.n > 0
  {
    Record(user, salt, PowMod(s.g, FromBig(s.hash(salt + s.hash(user + [58] + password))), s.n))
  }

  /** B = k v + g^b with k = H(N | PAD(g)). */
  function ServerB(s: Suite, r: Record, b: nat): nat
    requires s.n > 0
  {
    (FromBig(s.hash(Big(s.n, s.width) + Big(s.g, s.width))) * r.v + PowMod(s.g, b, s.n)) % s.n
  }

  /** H(S) with S = (A v^u)^b and u = H(A | B), both in their shortest form. */
  function ServerKey(s: Suite, r: Record, b: nat, aPub: bytes): bytes
    requires s.n > 0
  {
    var u := FromBig(s.hash(aPub + Trim(ServerB(s, r, b))));
    s.hash(Trim(PowMod(FromBig(aPub) * PowMod(r.v, u, s.n), b, s.n)))
  }

  /** H(H(N) xor H(g) | H(user) | salt | A | B | key). */
  function Expected(s: Suite, r: Record, b: nat, aPub: bytes): bytes
    requires s.n > 0
  {
    var hN, hG := s.hash(Big(s.n, s.width)), s.hash(Big(s.g, s.width));
    s.hash(Xor(hN, hG) + s.hash(r.user) + r.salt + aPub + Trim(ServerB(s, r, b)) + ServerKey(s, r, b, aPub))
  }

  /** M2 = H(A | M1 | key) for the proof it expects, and nothing for another. */
  function ServerAnswer(s: Suite, r: Record, b: nat, aPub: bytes, m1: bytes): Option<bytes>
    requires s.n > 0
  {
    if m1 == Expected(s, r, b, aPub) then Some(s.hash(aPub + m1 + ServerKey(s, r, b, aPub))) else None
  }

  lemma SameInputs(s: Suite, a: nat, b: nat, user: bytes, password: bytes, salt: bytes)
    requires s.n > 0
    ensures var r, x, A := Enrol(s, user, password, salt), X(s, user, password, salt), PublicA(s, a);
      && ServerB(s, r, b) == ServerPublic(s.n, s.g, K(s), x, b)
      && ServerKey(s, r, b, Trim(A)) == s.hash(Trim(ServerSecret(s.n, s.g, A, x, U(s, A, ServerB(s, r, b)), b)))
  {
    TrimReads(PublicA(s, a));
    hide FromBig, Trim, PowMod, Big;
  }

  /** Enrolled with the user's password, a server of RFC 5054 takes the client's proof and the client takes
      the server's. The server's B may come with any number of leading zero bytes. */
  lemma HonestProofsAccepted(s: Suite, a: nat, b: nat, user: bytes, password: bytes, salt: bytes, bPub: bytes)
    requires s.n > 0 && FromBig(bPub) == ServerB(s, Enrol(s, user, password, salt), b)
    ensures var (key, m1) := Process(s, a, user, password, salt, bPub);
      ServerAnswer(s, Enrol(s, user, password, salt), b, Trim(PublicA(s, a)), m1)
      == Some(ServerProof(s, Trim(PublicA(s, a)), m1, key))
  {
    SameInputs(s, a, b, user, password, salt);
    hide FromBig, Trim, Xor, ServerPublic, ClientSecret, ServerSecret, ServerB, ServerKey, Enrol, X, K, U;
    var x, A, B := X(s, user, password, salt), PublicA(s, a), FromBig(bPub);
    SecretsAgree(s.n, s.g, K(s), a, b, x, U(s, A, B));
    EnrolsAs(s, user, password, salt);
    assert Trim(A) + Trim(B) == Trim(A) + Trim(ServerB(s, Enrol(s, user, password, salt), b));
  }

  lemma EnrolsAs(s: Suite, user: bytes, password: bytes, salt: bytes)
    requires s.n > 0
    ensures Enrol(s, user, password, salt).user == user && Enrol(s, user, password, salt).salt == salt
  {
  }

  /** With another password or record, the proof is accepted if and only if client and server reached the
      same secret under the same user and salt, or two different texts hash alike. */
  lemma AcceptedExactly(s: Suite, a: nat, b: nat, user: bytes, password: bytes, salt: bytes, r: Record, bPub: bytes)
    returns (p: bytes, q: bytes)
    requires s.n > 0 && FixedLength(s) && FromBig(bPub) == ServerB(s, r, b)
    ensures var A, B := PublicA(s, a), FromBig(bPub); var m1 := Process(s, a, user, password, salt, bPub).1;
      var agree := user == r.user && salt == r.salt
        && ClientSecret(s.n, s.g, K(s), a, X(s, user, password, salt), U(s, A, B), B)
           == PowMod(A * PowMod(r.v, U(s, A, B), s.n), b, s.n);
      var accepted := ServerAnswer(s, r, b, Trim(A), m1).Some?;
      (agree ==> accepted) && (accepted && !agree ==> Collide(s, p, q))
  {
    var A, B := PublicA(s, a), FromBig(bPub);
    var S := ClientSecret(s.n, s.g, K(s), a, X(s, user, password, salt), U(s, A, B), B);
    var T := PowMod(A * PowMod(r.v, U(s, A, B), s.n), b, s.n);
    TrimReads(A);
    TrimReads(S);
    TrimReads(T);
    hide FromBig, Xor, ClientSecret, X, K, ServerB, PowMod;
    assert ServerKey(s, r, b, Trim(A)) == s.hash(Trim(T));
    hide Trim, U, PublicA;
    if S != T && s.hash(Trim(S)) == s.hash(Trim(T)) {
      p, q := Trim(S), Trim(T);
    } else {
      var m1, m2 := Process(s, a, user, password, salt, bPub).1, Expected(s, r, b, Trim(A));
      if m1 == m2 && (user != r.user || salt != r.salt || S != T) {
        p, q := ProofBindsText(s, user, salt, A, B, s.hash(Trim(S)), r.user, r.salt, A, B, s.hash(Trim(T)));
        if salt + Trim(A) + Trim(B) == r.salt + Trim(A) + Trim(B) {
          CatOne(salt + Trim(A), Trim(B), r.salt + Trim(A), Trim(B));
          CatOne(salt, Trim(A), r.salt, Trim(A));
        }
      } else {
        p, q := [], [];
      }
    }
  }

  /** Leading zeros do not change what bytes mean. */
  lemma {:induction false} LeadingZeros(z: nat, b: bytes)
    ensures FromBig(Zeros(z) + b) == FromBig(b)
    decreases z + |b|
  {
    var all := Zeros(z) + b;
    if b != [] {
      assert all[..|all| - 1] == Zeros(z) + b[..|b| - 1];
      LeadingZeros(z, b[..|b| - 1]);
    } else if z > 0 {
      assert all[..|all| - 1] == Zeros(z - 1) + b && all[|all| - 1] == 0;
      LeadingZeros(z - 1, b);
    }
  }

  // --- what the hashes bind ------------------------------------------------------------------------------

  ghost predicate FixedLength(s: Suite) { forall x, y :: |s.hash(x)| == |s.hash(y)| }

  predicate Collide(s: Suite, p: bytes, q: bytes) { p != q && s.hash(p) == s.hash(q) }

  lemma {:induction false} FromBigOne(a: bytes, b: bytes)
    requires |a| == |b| && FromBig(a) == FromBig(b)
    ensures a == b
  {
    if a != [] {
      var m := |a| - 1;
      LastDigit(FromBig(a[..m]), a[m], FromBig(b[..m]), b[m]);
      FromBigOne(a[..m], b[..m]);
      assert a == a[..m] + [a[m]] && b == b[..m] + [b[m]];
    }
  }

  lemma LastDigit(x: nat, a: byte, y: nat, b: byte)
    requires 256 * x + a == 256 * y + b
    ensures x == y && a == b
  {
  }

  lemma CatOne(a: bytes, b: bytes, c: bytes, d: bytes)
    requires a + b == c + d && (|a| == |c| || |b| == |d|)
    ensures a == c && b == d
  {
    assert a == (a + b)[..|a|] && c == (c + d)[..|c|];
    assert b == (a + b)[|a|..] && d == (c + d)[|c|..];
  }

  /** The client's x depends on the password: two passwords of one user and salt give the same x only where
      two different texts hash alike. */
  lemma PasswordBinds(s: Suite, user: bytes, salt: bytes, password: bytes, other: bytes) returns (p: bytes, q: bytes)
    requires FixedLength(s) && password != other && X(s, user, password, salt) == X(s, user, other, salt)
    ensures Collide(s, p, q)
  {
    var a, b := user + [58] + password, user + [58] + other;
    if a == b { CatOne(user + [58], password, user + [58], other); }
    if s.hash(a) == s.hash(b) {
      p, q := a, b;
    } else {
      p, q := salt + s.hash(a), salt + s.hash(b);
      FromBigOne(s.hash(p), s.hash(q));
      if p == q { CatOne(salt, s.hash(a), salt, s.hash(b)); }
    }
  }

  /** The proof binds user, salt, both public values and key: where two that differ in one of them are equal,
      two different texts hash alike, or salt and public values only run together to the same bytes. */
  lemma ProofBindsText(s: Suite, user: bytes, salt: bytes, A: nat, B: nat, key: bytes,
                       user': bytes, salt': bytes, A': nat, B': nat, key': bytes) returns (p: bytes, q: bytes)
    requires FixedLength(s) && |key| == |key'|
    ensures var same := user == user' && key == key' && salt + Trim(A) + Trim(B) == salt' + Trim(A') + Trim(B');
      var equal := M1(s, user, salt, A, B, key) == M1(s, user', salt', A', B', key');
      (same ==> equal) && (equal && !same ==> Collide(s, p, q))
  {
    var group := Xor(s.hash(Big(s.n, s.width)), s.hash(Big(s.g, s.width)));
    var mid, mid' := salt + Trim(A) + Trim(B), salt' + Trim(A') + Trim(B');
    hide Xor, Trim, FromBig;
    assert M1(s, user, salt, A, B, key) == s.hash(group + s.hash(user) + mid + key) by {
      assert group + s.hash(user) + salt + Trim(A) + Trim(B) + key == group + s.hash(user) + mid + key;
    }
    assert M1(s, user', salt', A', B', key') == s.hash(group + s.hash(user') + mid' + key') by {
      assert group + s.hash(user') + salt' + Trim(A') + Trim(B') + key' == group + s.hash(user') + mid' + key';
    }
    p, q := group + s.hash(user) + mid + key, group + s.hash(user') + mid' + key';
    if p == q {
      CatOne(group + s.hash(user) + mid, key, group + s.hash(user') + mid', key');
      assert group + (s.hash(user) + mid) == group + s.hash(user) + mid;
      assert group + (s.hash(user') + mid') == group + s.hash(user') + mid';
      CatOne(group, s.hash(user) + mid, group, s.hash(user') + mid');
      CatOne(s.hash(user), mid, s.hash(user'), mid');
      p, q := user, user';
    }
  }

  /** With salts of one length and public values of one length nothing runs together. */
  lemma ProofBinds(s: Suite, user: bytes, salt: bytes, A: nat, B: nat, key: bytes,
                   user': bytes, salt': bytes, A': nat, B': nat, key': bytes) returns (p: bytes, q: bytes)
    requires FixedLength(s) && |key| == |key'| && |salt| == |salt'| && |Trim(A)| == |Trim(A')|
    ensures var same := user == user' && salt == salt' && A == A' && B == B' && key == key';
      var equal := M1(s, user, salt, A, B, key) == M1(s, user', salt', A', B', key');
      (same ==> equal) && (equal && !same ==> Collide(s, p, q))
  {
    p, q := ProofBindsText(s, user, salt, A, B, key, user', salt', A', B', key');
    if salt + Trim(A) + Trim(B) == salt' + Trim(A') + Trim(B') {
      CatOne(salt + Trim(A), Trim(B), salt' + Trim(A'), Trim(B'));
      CatOne(salt, Trim(A), salt', Trim(A'));
      TrimReads(A);
      TrimReads(A');
      TrimReads(B);
      TrimReads(B');
    }
    hide M1, Trim, FromBig;
  }

  /** Without that the bytes do run together: no hash tells A = 0x0203 and B = 4 from A = 2 and B = 0x0304. */
  lemma PublicsRunTogether(s: Suite, user: bytes, salt: bytes, key: bytes)
    ensures M1(s, user, salt, 0x0203, 4, key) == M1(s, user, salt, 2, 0x0304, key)
    ensures U(s, 0x0203, 4) == U(s, 2, 0x0304)
  {
    assert Trim(2) == [2] && Trim(4) == [4] && Trim(3) == [3];
    assert Trim(0x0203) == [2, 3] && Trim(0x0304) == [3, 4];
    assert salt + [2, 3] + [4] == salt + [2] + [3, 4];
    assert [2, 3] + [4] == [2] + [3, 4];
    var pre := Xor(s.hash(Big(s.n, s.width)), s.hash(Big(s.g, s.width))) + s.hash(user);
    assert pre + salt + [2, 3] + [4] + key == pre + salt + [2] + [3, 4] + key;
  }

  lemma {:induction false} TrimPads(x: nat, width: nat)
    requires |Trim(x)| <= width
    ensures Big(x, width) == Zeros(width - |Trim(x)|) + Trim(x)
  {
    if x >= 256 {
      TrimPads(x / 256, width - 1);
      assert Zeros(width - |Trim(x)|) + Trim(x) == (Zeros(width - |Trim(x)|) + Trim(x / 256)) + [x % 256];
    } else {
      ZeroDigits(width - 1);
    }
  }

  lemma {:induction false} ZeroDigits(width: nat)
    ensures Big(0, width) == Zeros(width)
  {
    if width > 0 { ZeroDigits(width - 1); }
  }

  /** The scrambler of section 2.6 of RFC 5054: H(PAD(A) | PAD(B)). */
  function RfcScrambler(s: Suite, A: nat, B: nat): nat { FromBig(s.hash(Big(A, s.width) + Big(B, s.width))) }

  /** The client hashes the public values in their shortest form. That is the RFC's scrambler when both
      have the full width, and otherwise only where two different texts hash alike. */
  lemma ScramblerExactly(s: Suite, A: nat, B: nat) returns (p: bytes, q: bytes)
    requires FixedLength(s) && |Trim(A)| <= s.width && |Trim(B)| <= s.width
    ensures var full := |Trim(A)| == s.width && |Trim(B)| == s.width;
      (full ==> U(s, A, B) == RfcScrambler(s, A, B))
      && (U(s, A, B) == RfcScrambler(s, A, B) && !full ==> Collide(s, p, q))
  {
    TrimPads(A, s.width);
    TrimPads(B, s.width);
    p, q := Trim(A) + Trim(B), Big(A, s.width) + Big(B, s.width);
    hide Trim, Big, FromBig;
    if |Trim(A)| == s.width && |Trim(B)| == s.width {
      assert Zeros(0) + Trim(A) == Trim(A) && Zeros(0) + Trim(B) == Trim(B);
    } else if U(s, A, B) == RfcScrambler(s, A, B) {
      FromBigOne(s.hash(p), s.hash(q));
      assert |p| != |q|;
    }
  }

  lemma XorVector()
    ensures Xor([240, 15, 7], [60, 60, 0]) == [204, 51, 7]
  {
  }
}
