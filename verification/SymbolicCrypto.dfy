/** Symbolic cryptography: every WebCrypto primitive the client calls is a free
    constructor, so two derived values are equal exactly when they were derived
    the same way from the same inputs. X25519 is the one primitive with an
    equation: both ends of an exchange compute the same value. */
module SymbolicCrypto {

  datatype Option<+T> = None | Some(value: T)

  datatype Result<+T, +E> = Ok(value: T) | Err(error: E)

  /** A key pair is named by a number; the public half carries the same name. */
  type KeyName = nat

  /** Session associated data: the initiator's identity key, then the responder's. */
  datatype Binding = Binding(initiator: KeyName, responder: KeyName)

  datatype Term =
    | Atom(name: nat)                                            // random bytes
    | Shared(lo: KeyName, hi: KeyName)                           // X25519
    | X3dhSecret(dh1: Term, dh2: Term, dh3: Term, dh4: Option<Term>)
    | RootOf(root: Term, dh: Term)                               // KDF_RK, bytes 0..32
    | ChainOf(root: Term, dh: Term)                              // KDF_RK, bytes 32..64
    | NextChain(chain: Term)                                     // HMAC(ck, 0x02)
    | MessageKey(chain: Term)                                    // HMAC(ck, 0x01)

  /** X25519 between our private key and their public key. */
  function Ecdh(priv: KeyName, pub: KeyName): Term {
    if priv <= pub then Shared(priv, pub) else Shared(pub, priv)
  }

  lemma EcdhCommutes(a: KeyName, b: KeyName)
    ensures Ecdh(a, b) == Ecdh(b, a)
  {}

  /** Number of KDF applications above the initial secret. */
  function Height(t: Term): nat {
    match t
    case RootOf(r, _) => 1 + Height(r)
    case ChainOf(r, _) => 1 + Height(r)
    case NextChain(c) => 1 + Height(c)
    case MessageKey(c) => 1 + Height(c)
    case _ => 0
  }

  /** `t` is `secret` itself or is derived from it through the KDFs. */
  predicate DerivedFrom(t: Term, secret: Term) {
    t == secret ||
    match t
    case RootOf(r, _) => DerivedFrom(r, secret)
    case ChainOf(r, _) => DerivedFrom(r, secret)
    case NextChain(c) => DerivedFrom(c, secret)
    case MessageKey(c) => DerivedFrom(c, secret)
    case _ => false
  }

  /** What somebody holding the terms `terms` and the private keys `privs` can
      compute. The KDFs are one-way, so knowing a value means either holding it
      or knowing every input of the derivation that produces it. */
  predicate Computable(terms: set<Term>, privs: set<KeyName>, t: Term) {
    t in terms ||
    match t
    case Atom(_) => false
    case Shared(lo, hi) => lo in privs || hi in privs
    case X3dhSecret(a, b, c, d) =>
      Computable(terms, privs, a) && Computable(terms, privs, b) && Computable(terms, privs, c) &&
      (d.Some? ==> Computable(terms, privs, d.value))
    case RootOf(r, d) => Computable(terms, privs, r) && Computable(terms, privs, d)
    case ChainOf(r, d) => Computable(terms, privs, r) && Computable(terms, privs, d)
    case NextChain(c) => Computable(terms, privs, c)
    case MessageKey(c) => Computable(terms, privs, c)
  }

  /** Somebody who cannot compute the session secret, and was handed nothing
      derived from it, can compute nothing derived from it: the class of keys an
      outsider may seal under is closed under everything an outsider can do. */
  lemma {:induction false} OutsidersStayOutside(terms: set<Term>, privs: set<KeyName>, secret: Term, t: Term)
    requires !Computable(terms, privs, secret)
    requires forall k :: k in terms ==> !DerivedFrom(k, secret)
    requires Computable(terms, privs, t)
    ensures !DerivedFrom(t, secret)
  {
    if t !in terms {
      match t
      case RootOf(r, _) => OutsidersStayOutside(terms, privs, secret, r);
      case ChainOf(r, _) => OutsidersStayOutside(terms, privs, secret, r);
      case NextChain(c) => OutsidersStayOutside(terms, privs, secret, c);
      case MessageKey(c) => OutsidersStayOutside(terms, privs, secret, c);
      case _ =>
    }
  }

  /** The chain key `steps` KDF_CK steps after `chain`. */
  function Ratcheted(chain: Term, steps: nat): Term {
    if steps == 0 then chain else NextChain(Ratcheted(chain, steps - 1))
  }

  lemma {:induction false} RatchetedSum(chain: Term, m: nat, n: nat)
    ensures Ratcheted(Ratcheted(chain, m), n) == Ratcheted(chain, m + n)
  {
    if n > 0 {
      RatchetedSum(chain, m, n - 1);
    }
  }

  /** Two chains hanging off root-KDF outputs meet only if they are the same
      chain at the same index. */
  lemma {:induction false} ChainsDisjoint(r: Term, d: Term, m: nat, r': Term, d': Term, m': nat)
    requires Ratcheted(ChainOf(r, d), m) == Ratcheted(ChainOf(r', d'), m')
    ensures r == r' && d == d' && m == m'
  {
    if m > 0 && m' > 0 {
      ChainsDisjoint(r, d, m - 1, r', d', m' - 1);
    }
  }

  lemma {:induction false} RatchetedDerived(chain: Term, steps: nat, secret: Term)
    requires DerivedFrom(chain, secret)
    ensures DerivedFrom(Ratcheted(chain, steps), secret)
  {
    if steps > 0 {
      RatchetedDerived(chain, steps - 1, secret);
    }
  }
}
