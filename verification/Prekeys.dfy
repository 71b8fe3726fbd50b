/** The server's prekey tables: write-once identities, a replaceable signed
    prekey, and a pool of one-time prekeys each handed out once. */
module Prekeys {
  import opened SymbolicCrypto
  import opened X3dh

  const MAX_UNUSED_ONE_TIME_PREKEYS := 200

  type DeviceId = nat

  datatype Row = Row(device: DeviceId, id: nat, key: KeyName, used: bool)

  datatype SignedPrekey = SignedPrekey(id: nat, signed: SignedKey)

  datatype Tables = Tables(identities: map<DeviceId, KeyName>, dhKeys: map<DeviceId, SignedKey>,
                           signed: map<DeviceId, SignedPrekey>, rows: seq<Row>)

  datatype PublishError = IdentityMismatch | NoIdentityKey | BadPrekeySignature | TooManyPrekeys | DuplicateKeyId

  function UnusedCount(rows: seq<Row>, d: DeviceId): nat {
    if rows == [] then 0
    else UnusedCount(rows[..|rows| - 1], d) + (if rows[|rows| - 1].device == d && !rows[|rows| - 1].used then 1 else 0)
  }

  predicate Listed(rows: seq<Row>, d: DeviceId, id: int) {
    exists i :: 0 <= i < |rows| && rows[i].device == d && rows[i].id == id
  }

  function UploadIdentity(s: Tables, d: DeviceId, key: KeyName): Result<Tables, PublishError> {
    if d in s.identities then (if s.identities[d] != key then Err(IdentityMismatch) else Ok(s))
    else Ok(s.(identities := s.identities[d := key]))
  }

  function UploadIdentityDh(s: Tables, d: DeviceId, k: SignedKey): Result<Tables, PublishError> {
    if d !in s.identities then Err(NoIdentityKey)
    else if !Verifies(s.identities[d], k) then Err(BadPrekeySignature)
    else if d in s.dhKeys then (if s.dhKeys[d] == k then Ok(s) else Err(IdentityMismatch))
    else Ok(s.(dhKeys := s.dhKeys[d := k]))
  }

  function UploadSigned(s: Tables, d: DeviceId, id: nat, k: SignedKey): Result<Tables, PublishError> {
    if d !in s.identities then Err(NoIdentityKey)
    else if !Verifies(s.identities[d], k) then Err(BadPrekeySignature)
    else Ok(s.(signed := s.signed[d := SignedPrekey(id, k)]))
  }

  /** The inserts, stopping at the first id already on file. */
  function Inserted(rows: seq<Row>, d: DeviceId, keys: seq<OneTime>): Result<seq<Row>, PublishError> {
    if keys == [] then Ok(rows)
    else
      match Inserted(rows, d, keys[..|keys| - 1])
      case Err(e) => Err(e)
      case Ok(done) =>
        var k := keys[|keys| - 1];
        if Listed(done, d, k.id) then Err(DuplicateKeyId) else Ok(done + [Row(d, k.id, k.key, false)])
  }

  function AddOneTime(s: Tables, d: DeviceId, keys: seq<OneTime>): Result<Tables, PublishError> {
    if UnusedCount(s.rows, d) + |keys| > MAX_UNUSED_ONE_TIME_PREKEYS then Err(TooManyPrekeys)
    else
      match Inserted(s.rows, d, keys)
      case Err(e) => Err(e)
      case Ok(rows) => Ok(s.(rows := rows))
  }

  function Published(s: Tables, d: DeviceId, p: Payload): Result<Tables, PublishError> {
    match UploadIdentity(s, d, p.identityKey)
    case Err(e) => Err(e)
    case Ok(s1) =>
      match UploadIdentityDh(s1, d, p.identityDh)
      case Err(e) => Err(e)
      case Ok(s2) =>
        match UploadSigned(s2, d, p.signedId, p.signedPrekey)
        case Err(e) => Err(e)
        case Ok(s3) => if p.oneTime == [] then Ok(s3) else AddOneTime(s3, d, p.oneTime)
  }

  /** The oldest unused row of a device, or the number of rows if there is none. */
  function OldestUnused(rows: seq<Row>, d: DeviceId): (i: nat)
    ensures i <= |rows|
    ensures i < |rows| ==> rows[i].device == d && !rows[i].used
    ensures forall j :: 0 <= j < i ==> rows[j].device != d || rows[j].used
  {
    if rows == [] then 0
    else if rows[0].device == d && !rows[0].used then 0
    else 1 + OldestUnused(rows[1..], d)
  }

  function Claimed(rows: seq<Row>, d: DeviceId): seq<Row> {
    var i := OldestUnused(rows, d);
    if i < |rows| then rows[i := rows[i].(used := true)] else rows
  }

  predicate Complete(s: Tables, d: DeviceId) {
    d in s.identities && d in s.dhKeys && d in s.signed
  }

  function BundleOf(s: Tables, d: DeviceId): Bundle
    requires Complete(s, d)
  {
    var i := OldestUnused(s.rows, d);
    Bundle(s.identities[d], s.dhKeys[d], s.signed[d].id, s.signed[d].signed,
           if i < |s.rows| then Some(OneTime(s.rows[i].id, s.rows[i].key)) else None)
  }

  /** The first `i` keys went in, and the next one's id was on file by then. */
  predicate BlockedAt(rows: seq<Row>, rows': seq<Row>, d: DeviceId, keys: seq<OneTime>, i: nat)
    requires i < |keys|
  {
    Inserted(rows, d, keys[..i]) == Ok(rows') && Listed(rows', d, keys[i].id)
  }

  // ---------------------------------------------------------------------
  // What the operations come to.

  predicate Unused(rows: seq<Row>, d: DeviceId, i: int) {
    0 <= i < |rows| && rows[i].device == d && !rows[i].used
  }

  predicate FirstUnused(rows: seq<Row>, d: DeviceId, i: nat) {
    Unused(rows, d, i) && forall j :: 0 <= j < i ==> !Unused(rows, d, j)
  }

  function UnusedRows(rows: seq<Row>, d: DeviceId): set<int> {
    set i | 0 <= i < |rows| && Unused(rows, d, i)
  }

  lemma {:induction false} CountsUnused(rows: seq<Row>, d: DeviceId)
    ensures UnusedCount(rows, d) == |UnusedRows(rows, d)|
  {
    if rows != [] {
      var n := |rows| - 1;
      CountsUnused(rows[..n], d);
      assert forall i :: 0 <= i < n ==> (Unused(rows, d, i) <==> Unused(rows[..n], d, i));
      assert UnusedRows(rows, d) == UnusedRows(rows[..n], d) + (if Unused(rows, d, n) then {n} else {});
    }
  }

  /** A fetched bundle hands out the first one-time prekey of the device that is not
      used yet, and exactly that row is then marked used. */
  lemma BundleHandsOutFirstUnused(s: Tables, d: DeviceId, i: nat)
    requires Complete(s, d) && FirstUnused(s.rows, d, i)
    ensures BundleOf(s, d).oneTime == Some(OneTime(s.rows[i].id, s.rows[i].key))
    ensures Claimed(s.rows, d) == s.rows[i := s.rows[i].(used := true)]
  {
    var k := OldestUnused(s.rows, d);
    assert k <= i ==> !Unused(s.rows, d, k) || k == i;
  }

  /** Everything else in it is what the device has on file. */
  lemma BundleIsOnFile(s: Tables, d: DeviceId)
    requires Complete(s, d)
    ensures var b := BundleOf(s, d);
            && b.identityKey == s.identities[d] && b.identityDh == s.dhKeys[d]
            && SignedPrekey(b.signedId, b.signedPrekey) == s.signed[d]
  {}

  /** Without an unused one the bundle carries none, and nothing is marked. */
  lemma BundleWithoutPrekey(s: Tables, d: DeviceId)
    requires Complete(s, d) && forall j :: 0 <= j < |s.rows| ==> !Unused(s.rows, d, j)
    ensures BundleOf(s, d).oneTime == None && Claimed(s.rows, d) == s.rows
  {
    var k := OldestUnused(s.rows, d);
    assert k < |s.rows| ==> !Unused(s.rows, d, k);
  }

  predicate FreshIds(rows: seq<Row>, d: DeviceId, keys: seq<OneTime>) {
    && (forall i, j :: 0 <= i < |keys| && 0 <= j < |rows| && rows[j].device == d ==> rows[j].id != keys[i].id)
    && (forall i, j :: 0 <= i < j < |keys| ==> keys[i].id != keys[j].id)
  }

  function NewRows(d: DeviceId, keys: seq<OneTime>): seq<Row> {
    seq(|keys|, i requires 0 <= i < |keys| => Row(d, keys[i].id, keys[i].key, false))
  }

  /** Keys go in exactly when no id repeats or is on file for the device, and then in
      order, unused, after the rows there were. */
  lemma {:induction false} InsertedExactlyWhen(rows: seq<Row>, d: DeviceId, keys: seq<OneTime>)
    ensures Inserted(rows, d, keys).Ok? <==> FreshIds(rows, d, keys)
    ensures Inserted(rows, d, keys).Ok? ==> Inserted(rows, d, keys).value == rows + NewRows(d, keys)
  {
    if keys != [] {
      var n := |keys| - 1;
      InsertedExactlyWhen(rows, d, keys[..n]);
      assert NewRows(d, keys) == NewRows(d, keys[..n]) + [Row(d, keys[n].id, keys[n].key, false)];
      if Inserted(rows, d, keys[..n]).Ok? {
        var done := Inserted(rows, d, keys[..n]).value;
        if Listed(done, d, keys[n].id) {
          var i :| 0 <= i < |done| && done[i].device == d && done[i].id == keys[n].id;
          if i < |rows| { assert done[i] == rows[i]; } else { assert keys[i - |rows|].id == keys[n].id; }
        } else {
          assert forall i :: 0 <= i < |rows| ==> done[i] == rows[i];
          assert forall i :: 0 <= i < n ==> done[|rows| + i].id == keys[i].id && done[|rows| + i].device == d;
        }
      }
    } else {
      assert rows + NewRows(d, keys) == rows;
    }
  }

  /** What may be published: the identity key of the device, its other keys signed by it,
      no second identity DH key, and one-time prekeys that fit and have fresh ids. */
  predicate Publishable(s: Tables, d: DeviceId, p: Payload) {
    && (d in s.identities ==> s.identities[d] == p.identityKey)
    && p.identityDh.sig == Signature(p.identityKey, p.identityDh.key)
    && (d in s.dhKeys ==> s.dhKeys[d] == p.identityDh)
    && p.signedPrekey.sig == Signature(p.identityKey, p.signedPrekey.key)
    && (p.oneTime != [] ==>
          |UnusedRows(s.rows, d)| + |p.oneTime| <= MAX_UNUSED_ONE_TIME_PREKEYS && FreshIds(s.rows, d, p.oneTime))
  }

  function OnFileAfter(s: Tables, d: DeviceId, p: Payload): Tables {
    Tables(s.identities[d := p.identityKey], s.dhKeys[d := p.identityDh],
           s.signed[d := SignedPrekey(p.signedId, p.signedPrekey)], s.rows + NewRows(d, p.oneTime))
  }

  /** A bundle is accepted exactly then, and puts on file exactly what it says. */
  lemma PublishedExactlyWhen(s: Tables, d: DeviceId, p: Payload)
    ensures Published(s, d, p).Ok? <==> Publishable(s, d, p)
    ensures Published(s, d, p).Ok? ==> Published(s, d, p).value == OnFileAfter(s, d, p)
  {
    CountsUnused(s.rows, d);
    InsertedExactlyWhen(s.rows, d, p.oneTime);
    hide Inserted, UnusedCount, UnusedRows, FreshIds;
    assert d in s.identities && s.identities[d] == p.identityKey ==> s.identities[d := p.identityKey] == s.identities;
    assert d in s.dhKeys && s.dhKeys[d] == p.identityDh ==> s.dhKeys[d := p.identityDh] == s.dhKeys;
    assert p.oneTime == [] ==> s.rows + NewRows(d, p.oneTime) == s.rows;
  }

  /** Why a bundle is refused: another identity key or identity DH key is on file, a
      signature is not the identity's, too many prekeys would be unused, or an id repeats. */
  lemma PublishRefusedWhy(s: Tables, d: DeviceId, p: Payload)
    ensures var r := Published(s, d, p);
            && (r == Err(BadPrekeySignature) ==>
                  || p.identityDh.sig != Signature(p.identityKey, p.identityDh.key)
                  || p.signedPrekey.sig != Signature(p.identityKey, p.signedPrekey.key))
            && (r == Err(IdentityMismatch) ==>
                  || (d in s.identities && s.identities[d] != p.identityKey)
                  || (d in s.dhKeys && s.dhKeys[d] != p.identityDh))
            && (r == Err(TooManyPrekeys) ==> |UnusedRows(s.rows, d)| + |p.oneTime| > 200)
            && (r == Err(DuplicateKeyId) ==> !FreshIds(s.rows, d, p.oneTime))
            && r != Err(NoIdentityKey)
  {
    CountsUnused(s.rows, d);
    InsertedExactlyWhen(s.rows, d, p.oneTime);
    InsertedRefusedWhy(s.rows, d, p.oneTime);
    hide Inserted, UnusedCount, UnusedRows, FreshIds;
  }

  lemma {:induction false} InsertedRefusedWhy(rows: seq<Row>, d: DeviceId, keys: seq<OneTime>)
    ensures Inserted(rows, d, keys).Err? ==> Inserted(rows, d, keys) == Err(DuplicateKeyId)
  {
    if keys != [] { InsertedRefusedWhy(rows, d, keys[..|keys| - 1]); }
  }

  // ---------------------------------------------------------------------
  // The service over those tables.

  class PrekeyServer {
    var tables: Tables

    constructor ()
      ensures tables == Tables(map[], map[], map[], [])
    {
      tables := Tables(map[], map[], map[], []);
    }

    /** All of a published bundle, or none of it. */
    method PublishBundleAtomically(d: DeviceId, p: Payload) returns (e: Option<PublishError>)
      modifies this
      ensures e.None? ==> Published(old(tables), d, p) == Ok(tables)
      ensures e.Some? ==> Published(old(tables), d, p) == Err(e.value) && tables == old(tables)
    {
      var begin := tables;
      e := UploadAll(d, p);
      if e.Some? {
        tables := begin;
      }
    }

    method UploadAll(d: DeviceId, p: Payload) returns (e: Option<PublishError>)
      modifies this
      ensures e.None? ==> Published(old(tables), d, p) == Ok(tables)
      ensures e.Some? ==> Published(old(tables), d, p) == Err(e.value)
    {
      // upload_identity_key
      if d in tables.identities {
        if tables.identities[d] != p.identityKey {
          return Some(IdentityMismatch);
        }
      } else {
        tables := tables.(identities := tables.identities[d := p.identityKey]);
      }
      // upload_identity_dh_key
      if !Verifies(tables.identities[d], p.identityDh) {
        return Some(BadPrekeySignature);
      }
      if d in tables.dhKeys {
        if tables.dhKeys[d] != p.identityDh {
          return Some(IdentityMismatch);
        }
      } else {
        tables := tables.(dhKeys := tables.dhKeys[d := p.identityDh]);
      }
      // upload_signed_prekey
      if !Verifies(tables.identities[d], p.signedPrekey) {
        return Some(BadPrekeySignature);
      }
      tables := tables.(signed := tables.signed[d := SignedPrekey(p.signedId, p.signedPrekey)]);
      if p.oneTime != [] {
        e := AddOneTimePrekeys(d, p.oneTime);
      } else {
        e := None;
      }
    }

    /** Nothing is written over the cap. A failed insert leaves the rows of the keys
        before it, and nothing else; the caller's transaction undoes them. */
    method AddOneTimePrekeys(d: DeviceId, keys: seq<OneTime>) returns (e: Option<PublishError>)
      modifies this
      ensures e.None? ==> AddOneTime(old(tables), d, keys) == Ok(tables)
      ensures e.Some? ==> AddOneTime(old(tables), d, keys) == Err(e.value)
      ensures e == Some(TooManyPrekeys) ==> tables == old(tables)
      ensures e == Some(DuplicateKeyId) ==> tables == old(tables).(rows := tables.rows)
      ensures e == Some(DuplicateKeyId) ==>
                exists i :: 0 <= i < |keys| && BlockedAt(old(tables.rows), tables.rows, d, keys, i)
      ensures e.Some? ==> e.value in {TooManyPrekeys, DuplicateKeyId}
    {
      if UnusedCount(tables.rows, d) + |keys| > MAX_UNUSED_ONE_TIME_PREKEYS {
        return Some(TooManyPrekeys);
      }
      for i := 0 to |keys|
        invariant Inserted(old(tables.rows), d, keys[..i]) == Ok(tables.rows)
        invariant tables == old(tables).(rows := tables.rows)
      {
        assert keys[..i + 1][..i] == keys[..i];
        if Listed(tables.rows, d, keys[i].id) {
          StopsAt(old(tables.rows), d, keys, i + 1);
          assert BlockedAt(old(tables.rows), tables.rows, d, keys, i);
          return Some(DuplicateKeyId);
        }
        tables := tables.(rows := tables.rows + [Row(d, keys[i].id, keys[i].key, false)]);
      }
      assert keys[..|keys|] == keys;
      e := None;
    }

    method GetBundle(d: DeviceId) returns (b: Option<Bundle>)
      modifies this
      ensures b == if Complete(old(tables), d) then Some(BundleOf(old(tables), d)) else None
      ensures tables == if b.Some? then old(tables).(rows := Claimed(old(tables).rows, d)) else old(tables)
    {
      if d !in tables.identities || d !in tables.dhKeys || d !in tables.signed {
        return None;
      }
      b := Some(BundleOf(tables, d));
      tables := tables.(rows := Claimed(tables.rows, d));
    }
  }

  lemma {:induction false} StopsAt(rows: seq<Row>, d: DeviceId, keys: seq<OneTime>, i: nat)
    requires i <= |keys| && Inserted(rows, d, keys[..i]).Err?
    ensures Inserted(rows, d, keys) == Inserted(rows, d, keys[..i])
  {
    if i == |keys| {
      assert keys[..i] == keys;
    } else {
      assert keys[..|keys| - 1][..i] == keys[..i];
      StopsAt(rows, d, keys[..|keys| - 1], i);
    }
  }
}
