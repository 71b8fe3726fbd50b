/** Every run of publishing, topping up, fetching, initiating and answering, with
    one live identity per device. */
module BootstrapRuns {
  import opened SymbolicCrypto
  import opened X3dh
  import opened Prekeys

  datatype Offer = Offer(who: DeviceId, payload: Payload)

  datatype Init = Init(to: DeviceId, msg: InitialMessage, agreement: Agreement)

  datatype Answer = Answer(who: DeviceId, msg: InitialMessage)

  datatype World = World(server: Tables, devices: map<DeviceId, Identity>,
                         offers: seq<Offer>, inits: seq<Init>, answers: seq<Answer>)

  predicate Sound(w: World) {
    forall d :: d in w.devices ==> Issued(w.devices[d])
  }

  type Devices = ds: map<DeviceId, Identity> | forall d :: d in ds ==> Issued(ds[d]) witness map[]

  function Start(devices: Devices): (w: World)
    ensures Sound(w)
  {
    World(Tables(map[], map[], map[], []), devices, [], [], [])
  }

  /** BuildOffer builds a publish payload for any ids; TopUp issues new keys and
      builds the payload for those; Submit delivers an offer made earlier, maybe
      not for the first time; Initiate fetches a bundle and starts a session with
      it; Respond processes any initial message whatever. */
  datatype Action =
    | BuildOffer(d: DeviceId, ids: seq<int>)
    | TopUp(d: DeviceId, minted: seq<KeyName>)
    | Submit(i: nat)
    | Initiate(from: DeviceId, to: DeviceId, eph: KeyName)
    | Respond(d: DeviceId, msg: InitialMessage)

  function Fetched(w: World, to: DeviceId): World {
    if Complete(w.server, to) then w.(server := w.server.(rows := Claimed(w.server.rows, to))) else w
  }

  function Step(w: World, act: Action): (w': World)
    requires Sound(w)
    ensures Sound(w')
  {
    match act
    case BuildOffer(d, ids) =>
      if d in w.devices then w.(offers := w.offers + [Offer(d, PayloadOf(w.devices[d], ids))]) else w
    case TopUp(d, minted) =>
      if d !in w.devices then w
      else
        var more := WithMore(w.devices[d], minted);
        WithMoreIssued(w.devices[d], minted);
        w.(devices := w.devices[d := more],
           offers := w.offers + [Offer(d, PayloadOf(more, Range(w.devices[d].nextId, more.nextId)))])
    case Submit(i) =>
      if i >= |w.offers| then w
      else
        (match Published(w.server, w.offers[i].who, w.offers[i].payload)
         case Err(_) => w
         case Ok(s) => w.(server := s))
    case Initiate(from, to, eph) =>
      if from !in w.devices || !Complete(w.server, to) then w
      else
        (match X3dh.Initiate(w.devices[from], BundleOf(w.server, to), eph)
         case Err(_) => Fetched(w, to)
         case Ok(r) => Fetched(w, to).(inits := w.inits + [Init(to, r.1, r.0)]))
    case Respond(d, msg) =>
      if d !in w.devices || X3dh.Respond(w.devices[d], msg).Err? then w
      else w.(devices := w.devices[d := AfterRespond(w.devices[d], msg)], answers := w.answers + [Answer(d, msg)])
  }

  function Run(devices: Devices, acts: seq<Action>): (w: World)
    ensures Sound(w)
  {
    if acts == [] then Start(devices) else Step(Run(devices, acts[..|acts| - 1]), acts[|acts| - 1])
  }

  /** Some message naming this one-time prekey has been answered already. */
  predicate Spent(w: World, d: DeviceId, id: int) {
    exists i :: 0 <= i < |w.answers| && w.answers[i].who == d && w.answers[i].msg.oneTimeId == Some(id)
  }

  // ---------------------------------------------------------------------
  // The invariant.

  /** A published one-time prekey is the one its device holds under that id, or
      the device has already used it up. */
  predicate Backed(w: World, d: DeviceId, id: nat, key: KeyName) {
    && d in w.devices && id < w.devices[d].nextId
    && (if id in w.devices[d].oneTime then w.devices[d].oneTime[id] == key else Spent(w, d, id))
  }

  /** The identity material is this device's own. */
  predicate Owned(me: Identity, key: KeyName, dh: SignedKey, id: nat, spk: SignedKey) {
    && key == me.signing && dh == SignedBy(me.signing, me.dh)
    && id == me.signedId && spk == SignedBy(me.signing, me.signedPrekey)
  }

  predicate OfferInv(w: World, o: Offer) {
    && o.who in w.devices
    && Owned(w.devices[o.who], o.payload.identityKey, o.payload.identityDh, o.payload.signedId, o.payload.signedPrekey)
    && forall j :: 0 <= j < |o.payload.oneTime| ==> Backed(w, o.who, o.payload.oneTime[j].id, o.payload.oneTime[j].key)
  }

  predicate TablesInv(w: World) {
    && (forall d :: d in w.server.identities ==> d in w.devices && w.server.identities[d] == w.devices[d].signing)
    && (forall d :: d in w.server.dhKeys ==>
          d in w.devices && w.server.dhKeys[d] == SignedBy(w.devices[d].signing, w.devices[d].dh))
    && (forall d :: d in w.server.signed ==> d in w.devices && w.server.signed[d].id == w.devices[d].signedId &&
                                             w.server.signed[d].signed ==
                                               SignedBy(w.devices[d].signing, w.devices[d].signedPrekey))
  }

  predicate UniqueRows(rows: seq<Row>) {
    forall i, j :: 0 <= i < j < |rows| ==> rows[i].device != rows[j].device || rows[i].id != rows[j].id
  }

  predicate RowsInv(w: World) {
    && UniqueRows(w.server.rows)
    && forall i :: 0 <= i < |w.server.rows| ==>
         Backed(w, w.server.rows[i].device, w.server.rows[i].id, w.server.rows[i].key)
  }

  predicate HandedOut(rows: seq<Row>, d: DeviceId, id: int) {
    exists i :: 0 <= i < |rows| && rows[i].device == d && rows[i].id == id && rows[i].used
  }

  /** What answering this initial message now would give. */
  predicate InitInv(w: World, n: Init) {
    && n.to in w.devices
    && (n.msg.oneTimeId.Some? ==> HandedOut(w.server.rows, n.to, n.msg.oneTimeId.value))
    && (if n.msg.oneTimeId.Some? && n.msg.oneTimeId.value !in w.devices[n.to].oneTime
        then Spent(w, n.to, n.msg.oneTimeId.value)
        else X3dh.Respond(w.devices[n.to], n.msg) == Ok(n.agreement))
  }

  predicate AnswerInv(w: World, a: Answer) {
    && a.who in w.devices
    && (a.msg.oneTimeId.Some? ==>
          a.msg.oneTimeId.value < w.devices[a.who].nextId && a.msg.oneTimeId.value !in w.devices[a.who].oneTime)
  }

  predicate DistinctInits(inits: seq<Init>) {
    forall i, j :: 0 <= i < j < |inits| && inits[i].to == inits[j].to && inits[i].msg.oneTimeId.Some? ==>
      inits[i].msg.oneTimeId != inits[j].msg.oneTimeId
  }

  predicate Inv(w: World) {
    && Sound(w) && TablesInv(w) && RowsInv(w)
    && (forall i :: 0 <= i < |w.offers| ==> OfferInv(w, w.offers[i]))
    && (forall i :: 0 <= i < |w.inits| ==> InitInv(w, w.inits[i]))
    && (forall i :: 0 <= i < |w.answers| ==> AnswerInv(w, w.answers[i]))
    && DistinctInits(w.inits)
  }

  // ---------------------------------------------------------------------
  // Issuing keys and answering messages keep everything backed.

  /** From w to v the devices only issue new keys, or use keys up while recording
      it. */
  predicate Evolves(w: World, v: World) {
    && v.devices.Keys == w.devices.Keys
    && w.answers <= v.answers
    && forall d :: d in w.devices ==>
         && v.devices[d] == w.devices[d].(oneTime := v.devices[d].oneTime, nextId := v.devices[d].nextId)
         && w.devices[d].nextId <= v.devices[d].nextId
         && (forall id :: id in v.devices[d].oneTime && id < w.devices[d].nextId ==>
               id in w.devices[d].oneTime && v.devices[d].oneTime[id] == w.devices[d].oneTime[id])
         && (forall id :: id in w.devices[d].oneTime && id !in v.devices[d].oneTime ==> Spent(v, d, id))
  }

  lemma SpentStays(w: World, v: World, d: DeviceId, id: int)
    requires w.answers <= v.answers && Spent(w, d, id)
    ensures Spent(v, d, id)
  {
    var i :| 0 <= i < |w.answers| && w.answers[i].who == d && w.answers[i].msg.oneTimeId == Some(id);
    assert v.answers[i] == w.answers[i];
  }

  lemma BackedStays(w: World, v: World, d: DeviceId, id: nat, key: KeyName)
    requires Evolves(w, v) && Backed(w, d, id, key)
    ensures Backed(v, d, id, key)
  {
    if id !in w.devices[d].oneTime {
      SpentStays(w, v, d, id);
    }
  }

  lemma InitStays(w: World, v: World, n: Init)
    requires Evolves(w, v) && v.server == w.server && Sound(w) && RowsInv(w) && InitInv(w, n)
    ensures InitInv(v, n)
  {
    if n.msg.oneTimeId.Some? && n.msg.oneTimeId.value !in w.devices[n.to].oneTime {
      SpentStays(w, v, n.to, n.msg.oneTimeId.value);
    }
  }

  lemma EvolvesKeeps(w: World, v: World)
    requires Inv(w) && Evolves(w, v) && v.server == w.server && v.inits == w.inits && Sound(v)
    ensures TablesInv(v) && RowsInv(v)
    ensures forall i :: 0 <= i < |w.offers| ==> OfferInv(v, w.offers[i])
    ensures forall i :: 0 <= i < |v.inits| ==> InitInv(v, v.inits[i])
  {
    forall i | 0 <= i < |w.server.rows|
      ensures Backed(v, w.server.rows[i].device, w.server.rows[i].id, w.server.rows[i].key)
    {
      BackedStays(w, v, w.server.rows[i].device, w.server.rows[i].id, w.server.rows[i].key);
    }
    forall i | 0 <= i < |w.offers|
      ensures OfferInv(v, w.offers[i])
    {
      var o := w.offers[i];
      forall j | 0 <= j < |o.payload.oneTime|
        ensures Backed(v, o.who, o.payload.oneTime[j].id, o.payload.oneTime[j].key)
      {
        BackedStays(w, v, o.who, o.payload.oneTime[j].id, o.payload.oneTime[j].key);
      }
    }
    forall i | 0 <= i < |v.inits|
      ensures InitInv(v, v.inits[i])
    {
      assert InitInv(w, w.inits[i]);
      InitStays(w, v, w.inits[i]);
    }
  }

  lemma {:induction false} OfferedHeld(me: Identity, ids: seq<int>)
    requires Issued(me)
    ensures forall j :: 0 <= j < |Offered(me, ids)| ==>
              Offered(me, ids)[j].id in me.oneTime && me.oneTime[Offered(me, ids)[j].id] == Offered(me, ids)[j].key
  {
    if ids != [] { OfferedHeld(me, ids[..|ids| - 1]); }
  }

  lemma OfferMade(w: World, d: DeviceId, ids: seq<int>)
    requires Sound(w) && d in w.devices
    ensures OfferInv(w, Offer(d, PayloadOf(w.devices[d], ids)))
  {
    OfferedHeld(w.devices[d], ids);
    var p := PayloadOf(w.devices[d], ids);
    forall j | 0 <= j < |p.oneTime|
      ensures Backed(w, d, p.oneTime[j].id, p.oneTime[j].key)
    {}
  }

  // ---------------------------------------------------------------------
  // The steps.

  lemma BuildOfferInv(w: World, d: DeviceId, ids: seq<int>)
    requires Inv(w)
    ensures Inv(Step(w, BuildOffer(d, ids)))
  {
    var v := Step(w, BuildOffer(d, ids));
    if d in w.devices {
      OfferMade(w, d, ids);
      EvolvesKeeps(w, v);
      EvolvesKeepsOffer(w, v, Offer(d, PayloadOf(w.devices[d], ids)));
    }
  }

  lemma EvolvesKeepsOffer(w: World, v: World, o: Offer)
    requires Evolves(w, v) && OfferInv(w, o)
    ensures OfferInv(v, o)
  {
    forall j | 0 <= j < |o.payload.oneTime|
      ensures Backed(v, o.who, o.payload.oneTime[j].id, o.payload.oneTime[j].key)
    {
      BackedStays(w, v, o.who, o.payload.oneTime[j].id, o.payload.oneTime[j].key);
    }
  }

  lemma TopUpInv(w: World, d: DeviceId, minted: seq<KeyName>)
    requires Inv(w)
    ensures Inv(Step(w, TopUp(d, minted)))
  {
    var v := Step(w, TopUp(d, minted));
    if d in w.devices {
      WithMoreIssued(w.devices[d], minted);
      assert Evolves(w, v);
      EvolvesKeeps(w, v);
      OfferMade(v, d, Range(w.devices[d].nextId, v.devices[d].nextId));
      forall i | 0 <= i < |v.answers|
        ensures AnswerInv(v, v.answers[i])
      {
        assert AnswerInv(w, w.answers[i]);
      }
    }
  }

  lemma RespondInv(w: World, d: DeviceId, msg: InitialMessage)
    requires Inv(w)
    ensures Inv(Step(w, Respond(d, msg)))
  {
    var v := Step(w, Respond(d, msg));
    if d in w.devices && X3dh.Respond(w.devices[d], msg).Ok? {
      var last := |w.answers|;
      assert v.answers[last] == Answer(d, msg);
      assert Evolves(w, v);
      EvolvesKeeps(w, v);
      forall i | 0 <= i < |v.answers|
        ensures AnswerInv(v, v.answers[i])
      {
        if i < last { assert AnswerInv(w, w.answers[i]); }
      }
    }
  }

  lemma PublishedShape(s: Tables, d: DeviceId, p: Payload)
    requires Published(s, d, p).Ok?
    ensures var t := Published(s, d, p).value;
            && t.identities == s.identities[d := p.identityKey]
            && t.dhKeys == s.dhKeys[d := p.identityDh]
            && t.signed == s.signed[d := SignedPrekey(p.signedId, p.signedPrekey)]
            && Inserted(s.rows, d, p.oneTime) == Ok(t.rows)
  {}

  lemma {:induction false} InsertedRows(rows: seq<Row>, d: DeviceId, keys: seq<OneTime>)
    requires UniqueRows(rows) && Inserted(rows, d, keys).Ok?
    ensures var r := Inserted(rows, d, keys).value;
            && UniqueRows(r) && |r| == |rows| + |keys| && rows <= r
            && forall j :: 0 <= j < |keys| ==> r[|rows| + j] == Row(d, keys[j].id, keys[j].key, false)
  {
    if keys != [] { InsertedRows(rows, d, keys[..|keys| - 1]); }
  }

  lemma InitMoves(w: World, v: World, n: Init)
    requires InitInv(w, n) && v.devices == w.devices && v.answers == w.answers
    requires forall d, id :: HandedOut(w.server.rows, d, id) ==> HandedOut(v.server.rows, d, id)
    ensures InitInv(v, n)
  {
    if n.msg.oneTimeId.Some? && n.msg.oneTimeId.value !in w.devices[n.to].oneTime {
      SpentStays(w, v, n.to, n.msg.oneTimeId.value);
    }
  }

  lemma RowsMove(w: World, v: World)
    requires Inv(w) && v == w.(server := v.server) && TablesInv(v) && UniqueRows(v.server.rows)
    requires forall i :: 0 <= i < |v.server.rows| ==>
               Backed(w, v.server.rows[i].device, v.server.rows[i].id, v.server.rows[i].key)
    requires forall d, id :: HandedOut(w.server.rows, d, id) ==> HandedOut(v.server.rows, d, id)
    ensures Inv(v)
  {
    assert Evolves(w, v);
    forall i | 0 <= i < |v.server.rows|
      ensures Backed(v, v.server.rows[i].device, v.server.rows[i].id, v.server.rows[i].key)
    {
      BackedStays(w, v, v.server.rows[i].device, v.server.rows[i].id, v.server.rows[i].key);
    }
    forall i | 0 <= i < |v.offers|
      ensures OfferInv(v, v.offers[i])
    {
      EvolvesKeepsOffer(w, v, v.offers[i]);
    }
    forall i | 0 <= i < |v.inits|
      ensures InitInv(v, v.inits[i])
    {
      InitMoves(w, v, v.inits[i]);
    }
  }

  lemma SubmitInv(w: World, k: nat)
    requires Inv(w)
    ensures Inv(Step(w, Submit(k)))
  {
    var v := Step(w, Submit(k));
    if k < |w.offers| && Published(w.server, w.offers[k].who, w.offers[k].payload).Ok? {
      var o := w.offers[k];
      var rows, rows' := w.server.rows, v.server.rows;
      assert OfferInv(w, o);
      PublishedShape(w.server, o.who, o.payload);
      InsertedRows(rows, o.who, o.payload.oneTime);
      forall i | 0 <= i < |rows'|
        ensures Backed(w, rows'[i].device, rows'[i].id, rows'[i].key)
      {
        if i < |rows| {
          assert rows'[i] == rows[i];
        } else {
          assert rows'[|rows| + (i - |rows|)].id == o.payload.oneTime[i - |rows|].id;
        }
      }
      forall d, id | HandedOut(rows, d, id)
        ensures HandedOut(rows', d, id)
      {
        var i :| 0 <= i < |rows| && rows[i].device == d && rows[i].id == id && rows[i].used;
        assert rows'[i] == rows[i];
      }
      RowsMove(w, v);
    }
  }

  lemma FetchedInv(w: World, to: DeviceId)
    requires Inv(w)
    ensures Inv(Fetched(w, to))
  {
    if Complete(w.server, to) {
      var rows, rows' := w.server.rows, Claimed(w.server.rows, to);
      forall d, id | HandedOut(rows, d, id)
        ensures HandedOut(rows', d, id)
      {
        var i :| 0 <= i < |rows| && rows[i].device == d && rows[i].id == id && rows[i].used;
        assert rows'[i].device == d && rows'[i].id == id && rows'[i].used;
      }
      forall i | 0 <= i < |rows'|
        ensures Backed(w, rows'[i].device, rows'[i].id, rows'[i].key)
      {
        assert Backed(w, rows[i].device, rows[i].id, rows[i].key);
      }
      RowsMove(w, Fetched(w, to));
    }
  }

  /** The bundle shows what the device holds, or names a key it has used up; the
      message built from it is answered accordingly. */
  lemma NewInit(w: World, from: DeviceId, to: DeviceId, eph: KeyName)
    requires Inv(w) && from in w.devices && Complete(w.server, to)
    ensures X3dh.Initiate(w.devices[from], BundleOf(w.server, to), eph).Ok?
    ensures var r := X3dh.Initiate(w.devices[from], BundleOf(w.server, to), eph).value;
            InitInv(Fetched(w, to), Init(to, r.1, r.0))
  {
    var b := BundleOf(w.server, to);
    var me := w.devices[to];
    var i := OldestUnused(w.server.rows, to);
    if i < |w.server.rows| {
      var row := w.server.rows[i];
      assert Backed(w, to, row.id, row.key);
      assert Claimed(w.server.rows, to)[i].used;
      assert HandedOut(Fetched(w, to).server.rows, to, row.id);
      if row.id !in me.oneTime {
        SpentStays(w, Fetched(w, to), to, row.id);
      } else {
        AgreementLaw(w.devices[from], me, b, eph);
      }
    } else {
      AgreementLaw(w.devices[from], me, b, eph);
    }
  }

  lemma NewlyHanded(w: World, to: DeviceId)
    requires Inv(w)
    ensures var i := OldestUnused(w.server.rows, to);
            i < |w.server.rows| ==> !HandedOut(w.server.rows, to, w.server.rows[i].id)
  {
    var rows := w.server.rows;
    var i := OldestUnused(rows, to);
    if i < |rows| {
      forall j | 0 <= j < |rows| && rows[j].device == to && rows[j].id == rows[i].id
        ensures !rows[j].used
      {
        assert j == i;
      }
    }
  }

  lemma InitiateInv(w: World, from: DeviceId, to: DeviceId, eph: KeyName)
    requires Inv(w)
    ensures Inv(Step(w, Initiate(from, to, eph)))
  {
    if from in w.devices && Complete(w.server, to) {
      FetchedInv(w, to);
      NewInit(w, from, to, eph);
      NewlyHanded(w, to);
      var r := X3dh.Initiate(w.devices[from], BundleOf(w.server, to), eph).value;
      var f := Fetched(w, to);
      var v := Step(w, Initiate(from, to, eph));
      var n := Init(to, r.1, r.0);
      assert v == f.(inits := f.inits + [n]);
      AddedInit(f, n, v);
      forall i | 0 <= i < |w.inits| && w.inits[i].to == to && w.inits[i].msg.oneTimeId.Some?
        ensures w.inits[i].msg.oneTimeId != n.msg.oneTimeId
      {
        assert InitInv(w, w.inits[i]);
      }
    }
  }

  lemma AddedInit(f: World, n: Init, v: World)
    requires Inv(f) && InitInv(f, n) && v == f.(inits := f.inits + [n])
    ensures Sound(v) && TablesInv(v) && RowsInv(v)
    ensures forall i :: 0 <= i < |v.offers| ==> OfferInv(v, v.offers[i])
    ensures forall i :: 0 <= i < |v.inits| ==> InitInv(v, v.inits[i])
    ensures forall i :: 0 <= i < |v.answers| ==> AnswerInv(v, v.answers[i])
  {
    assert Evolves(f, v);
    forall i | 0 <= i < |v.server.rows|
      ensures Backed(v, v.server.rows[i].device, v.server.rows[i].id, v.server.rows[i].key)
    {
      BackedStays(f, v, v.server.rows[i].device, v.server.rows[i].id, v.server.rows[i].key);
    }
    forall i | 0 <= i < |v.offers|
      ensures OfferInv(v, v.offers[i])
    {
      EvolvesKeepsOffer(f, v, v.offers[i]);
    }
    forall i | 0 <= i < |v.inits|
      ensures InitInv(v, v.inits[i])
    {
      assert InitInv(f, v.inits[i]);
      InitMoves(f, v, v.inits[i]);
    }
  }

  lemma {:induction false} RunInv(devices: Devices, acts: seq<Action>)
    ensures Inv(Run(devices, acts))
  {
    if acts != [] {
      var w := Run(devices, acts[..|acts| - 1]);
      RunInv(devices, acts[..|acts| - 1]);
      match acts[|acts| - 1]
      case BuildOffer(d, ids) => BuildOfferInv(w, d, ids);
      case TopUp(d, minted) => TopUpInv(w, d, minted);
      case Submit(i) => SubmitInv(w, i);
      case Initiate(from, to, eph) => InitiateInv(w, from, to, eph);
      case Respond(d, msg) => RespondInv(w, d, msg);
    }
  }

  // ---------------------------------------------------------------------
  // What every run guarantees.

  /** No one-time prekey is handed to two initiators. */
  lemma HandedOutOnce(devices: Devices, acts: seq<Action>, i: nat, j: nat)
    requires i < j < |Run(devices, acts).inits|
    requires Run(devices, acts).inits[i].to == Run(devices, acts).inits[j].to
    ensures var inits := Run(devices, acts).inits;
            inits[i].msg.oneTimeId == inits[j].msg.oneTimeId ==> inits[i].msg.oneTimeId == None
  {
    RunInv(devices, acts);
  }

  /** A started session names a one-time prekey if and only if the device had an unused
      one when its bundle was fetched, and then it is the first of those, now used. */
  lemma NamesPrekeyExactlyWhenOneWasUnused(devices: Devices, acts: seq<Action>, w: World, from: DeviceId, to: DeviceId,
                                           eph: KeyName)
    requires w == Run(devices, acts) && from in w.devices && Complete(w.server, to)
    ensures var v := Step(w, Initiate(from, to, eph));
            && |v.inits| == |w.inits| + 1 && v.inits[|w.inits|].to == to
            && (v.inits[|w.inits|].msg.oneTimeId.Some? <==> exists i :: Unused(w.server.rows, to, i))
            && forall i: nat :: FirstUnused(w.server.rows, to, i) ==>
                 && v.inits[|w.inits|].msg.oneTimeId == Some(w.server.rows[i].id)
                 && v.server.rows == w.server.rows[i := w.server.rows[i].(used := true)]
  {
    RunInv(devices, acts);
    var k := OldestUnused(w.server.rows, to);
    assert Unused(w.server.rows, to, k) <==> k < |w.server.rows|;
    forall i: nat | FirstUnused(w.server.rows, to, i)
      ensures i == k
    {
      BundleHandsOutFirstUnused(w.server, to, i);
    }
  }

  /** The pool of unused one-time prekeys of a device never exceeds the cap. */
  lemma {:induction false} PoolNeverOverfull(devices: Devices, acts: seq<Action>, d: DeviceId)
    ensures |UnusedRows(Run(devices, acts).server.rows, d)| <= MAX_UNUSED_ONE_TIME_PREKEYS
  {
    if acts != [] {
      var w := Run(devices, acts[..|acts| - 1]);
      PoolNeverOverfull(devices, acts[..|acts| - 1], d);
      match acts[|acts| - 1]
      case BuildOffer(_, _) =>
      case TopUp(_, _) =>
      case Respond(_, _) =>
      case Submit(i) =>
        if i < |w.offers| && Published(w.server, w.offers[i].who, w.offers[i].payload).Ok? {
          PublishedFits(w.server, w.offers[i].who, w.offers[i].payload, d);
        }
      case Initiate(_, to, _) => ClaimedFits(w.server.rows, to, d);
    }
  }

  lemma PublishedFits(s: Tables, who: DeviceId, p: Payload, d: DeviceId)
    requires |UnusedRows(s.rows, d)| <= MAX_UNUSED_ONE_TIME_PREKEYS && Published(s, who, p).Ok?
    ensures |UnusedRows(Published(s, who, p).value.rows, d)| <= MAX_UNUSED_ONE_TIME_PREKEYS
  {
    PublishedExactlyWhen(s, who, p);
    hide Published;
    CountsUnused(s.rows, d);
    CountsUnused(s.rows + NewRows(who, p.oneTime), d);
    AddedCount(s.rows, who, p.oneTime, d);
  }

  lemma {:induction false} AddedCount(rows: seq<Row>, who: DeviceId, keys: seq<OneTime>, d: DeviceId)
    ensures UnusedCount(rows + NewRows(who, keys), d) == UnusedCount(rows, d) + (if who == d then |keys| else 0)
  {
    var all := rows + NewRows(who, keys);
    if keys == [] {
      assert all == rows;
    } else {
      var n := |keys| - 1;
      AddedCount(rows, who, keys[..n], d);
      assert all[..|all| - 1] == rows + NewRows(who, keys[..n]);
    }
  }

  lemma ClaimedFits(rows: seq<Row>, to: DeviceId, d: DeviceId)
    ensures |UnusedRows(Claimed(rows, to), d)| <= |UnusedRows(rows, d)|
  {
    CountsUnused(rows, d);
    CountsUnused(Claimed(rows, to), d);
    var i := OldestUnused(rows, to);
    if i < |rows| { MarkedCount(rows, i, d); }
  }

  lemma {:induction false} MarkedCount(rows: seq<Row>, i: nat, d: DeviceId)
    requires i < |rows|
    ensures UnusedCount(rows[i := rows[i].(used := true)], d) <= UnusedCount(rows, d)
  {
    var marked, n := rows[i := rows[i].(used := true)], |rows| - 1;
    if i < n {
      MarkedCount(rows[..n], i, d);
      assert marked[..n] == rows[..n][i := rows[i].(used := true)];
    } else {
      assert marked[..n] == rows[..n];
    }
  }

  /** Answering an initial message built from a fetched bundle succeeds exactly
      when its one-time prekey, if it names one, was not used up before, and then
      both ends hold the same secret, associated data and bootstrap exchange. */
  lemma AnsweredExactlyWhenUnspent(devices: Devices, acts: seq<Action>, i: nat)
    requires i < |Run(devices, acts).inits|
    ensures var w := Run(devices, acts);
            var n := w.inits[i];
            && n.to in w.devices
            && var r := X3dh.Respond(w.devices[n.to], n.msg);
            && (r.Ok? <==> n.msg.oneTimeId.None? || !Spent(w, n.to, n.msg.oneTimeId.value))
            && (r.Ok? ==> r.value == n.agreement)
  {
    RunInv(devices, acts);
    var w := Run(devices, acts);
    var n := w.inits[i];
    if n.msg.oneTimeId.Some? && Spent(w, n.to, n.msg.oneTimeId.value) {
      var k :| 0 <= k < |w.answers| && w.answers[k].who == n.to && w.answers[k].msg.oneTimeId == n.msg.oneTimeId;
      assert AnswerInv(w, w.answers[k]);
    }
  }

  /** The message is for the device's signed prekey, and both its keys import. */
  predicate WellFormed(w: World, d: DeviceId, msg: InitialMessage) {
    d in w.devices && msg.signedId == w.devices[d].signedId && msg.identityDh.Some? && msg.ephemeral.Some?
  }

  /** At any point of any run, processing a message that names a prekey the device
      holds uses it up exactly when the message is well formed. */
  lemma PrekeySpentExactlyWhen(devices: Devices, acts: seq<Action>, w: World, d: DeviceId, msg: InitialMessage)
    requires w == Run(devices, acts) && d in w.devices
    requires msg.oneTimeId.Some? && msg.oneTimeId.value in w.devices[d].oneTime
    ensures Spent(Step(w, Respond(d, msg)), d, msg.oneTimeId.value) <==> WellFormed(w, d, msg)
    ensures !WellFormed(w, d, msg) ==> Step(w, Respond(d, msg)) == w
  {
    RunInv(devices, acts);
    var v := Step(w, Respond(d, msg));
    if WellFormed(w, d, msg) {
      assert v.answers[|w.answers|] == Answer(d, msg);
    }
    assert forall k :: 0 <= k < |w.answers| ==> AnswerInv(w, w.answers[k]);
  }

  /** So a message that does not import spends nothing: a genuine initial message
      naming the same prekey is still answered after it, with both ends agreeing. */
  lemma RefusalSpendsNothing(devices: Devices, acts: seq<Action>, w: World, i: nat, bad: InitialMessage)
    requires w == Run(devices, acts) && i < |w.inits|
    requires var n := w.inits[i];
             && n.msg.oneTimeId.Some? && bad.oneTimeId == n.msg.oneTimeId
             && !Spent(w, n.to, n.msg.oneTimeId.value) && !WellFormed(w, n.to, bad)
    ensures var n := w.inits[i];
            var v := Step(w, Respond(n.to, bad));
            && !Spent(v, n.to, n.msg.oneTimeId.value)
            && n.to in v.devices && X3dh.Respond(v.devices[n.to], n.msg) == Ok(n.agreement)
  {
    AnsweredExactlyWhenUnspent(devices, acts, i);
    PrekeySpentExactlyWhen(devices, acts, w, w.inits[i].to, bad);
  }

  /** Once any message naming a one-time prekey has been answered, every message
      naming it, that one included, is refused for good. */
  lemma SpentIsRefused(devices: Devices, acts: seq<Action>, d: DeviceId, msg: InitialMessage)
    requires msg.oneTimeId.Some? && Spent(Run(devices, acts), d, msg.oneTimeId.value)
    ensures var w := Run(devices, acts);
            d in w.devices && X3dh.Respond(w.devices[d], msg).Err?
  {
    RunInv(devices, acts);
    var w := Run(devices, acts);
    var k :| 0 <= k < |w.answers| && w.answers[k].who == d && w.answers[k].msg.oneTimeId == Some(msg.oneTimeId.value);
    assert AnswerInv(w, w.answers[k]);
  }
}
