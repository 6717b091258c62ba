/**
 * The session lifecycle of backend/src/libs/wbot.ts: the module-level
 * `sessions` registry with `getWbot` and `removeWbot`, the module-level QR
 * counter map, `deepCoerce`, and the `connection.update` handler that each
 * `initWASocket` call installs on its socket.
 *
 * Database writes, the socket's teardown, event emission and the delayed
 * restart are recorded as effects in one log, in the order the handler
 * starts them.
 */
module Wbot {
  import opened Wrappers
  import opened JsValue

  // ---- registry ----

  /** A registered socket: the tenant id stamped on it and the socket itself. */
  datatype Session = Session(id: int, socket: nat)

  /** `sessions.findIndex(s => s.id === id)`. */
  function FindIndex(sessions: seq<Session>, id: int): (r: int)
    ensures -1 <= r < |sessions|
    ensures r == -1 <==> forall i :: 0 <= i < |sessions| ==> sessions[i].id != id
    ensures r >= 0 ==> sessions[r].id == id && forall i :: 0 <= i < r ==> sessions[i].id != id
  {
    if |sessions| == 0 then -1
    else if sessions[0].id == id then 0
    else
      var r := FindIndex(sessions[1..], id);
      if r == -1 then -1 else r + 1
  }

  /** No two registered sockets carry the same tenant id. */
  predicate NoDupIds(sessions: seq<Session>) {
    forall i, j :: 0 <= i < j < |sessions| ==> sessions[i].id != sessions[j].id
  }

  predicate Registered(sessions: seq<Session>, id: int) {
    exists i :: 0 <= i < |sessions| && sessions[i].id == id
  }

  /** The registry after `removeWbot(id, …)`: the first entry with that id spliced out. */
  function RemoveFirst(sessions: seq<Session>, id: int): (r: seq<Session>)
    ensures !Registered(sessions, id) ==> r == sessions
    ensures Registered(sessions, id) ==>
              |r| == |sessions| - 1
              && forall k :: 0 <= k < |r| ==> r[k] == sessions[if k < FindIndex(sessions, id) then k else k + 1]
  {
    var i := FindIndex(sessions, id);
    if i == -1 then sessions else sessions[..i] + sessions[i + 1..]
  }

  /** The entries of other tenants, in registry order. */
  function Others(sessions: seq<Session>, id: int): (r: seq<Session>)
    ensures |r| <= |sessions|
  {
    if sessions == [] then []
    else if sessions[0].id == id then Others(sessions[1..], id)
    else [sessions[0]] + Others(sessions[1..], id)
  }

  /** The number of entries carrying an id. */
  function Count(sessions: seq<Session>, id: int): nat {
    if sessions == [] then 0
    else (if sessions[0].id == id then 1 else 0) + Count(sessions[1..], id)
  }

  lemma {:induction false} OthersAppend(a: seq<Session>, b: seq<Session>, id: int)
    ensures Others(a + b, id) == Others(a, id) + Others(b, id)
    ensures Count(a + b, id) == Count(a, id) + Count(b, id)
  {
    if a != [] {
      OthersAppend(a[1..], b, id);
      assert (a + b)[0] == a[0];
      assert (a + b)[1..] == a[1..] + b;
    } else {
      assert a + b == b;
    }
  }

  /**
   * `removeWbot` takes out exactly one entry with the id when there is one,
   * leaves the other tenants' entries in their order, and changes nothing
   * when the id is absent.
   */
  lemma RemoveFirstSpec(sessions: seq<Session>, id: int)
    ensures Others(RemoveFirst(sessions, id), id) == Others(sessions, id)
    ensures Registered(sessions, id) ==> Count(RemoveFirst(sessions, id), id) == Count(sessions, id) - 1
                                         && |RemoveFirst(sessions, id)| == |sessions| - 1
    ensures !Registered(sessions, id) ==> RemoveFirst(sessions, id) == sessions
  {
    var i := FindIndex(sessions, id);
    if i != -1 {
      assert sessions == sessions[..i] + ([sessions[i]] + sessions[i + 1..]);
      OthersAppend(sessions[..i], [sessions[i]] + sessions[i + 1..], id);
      OthersAppend([sessions[i]], sessions[i + 1..], id);
      OthersAppend(sessions[..i], sessions[i + 1..], id);
      assert Others([sessions[i]], id) == [] by {
        assert [sessions[i]][1..] == [];
      }
      assert Count([sessions[i]], id) == 1 by {
        assert [sessions[i]][1..] == [];
      }
    }
  }

  /** Removal keeps the ids distinct, and then no entry with the id is left. */
  lemma RemoveFirstUnique(sessions: seq<Session>, id: int)
    requires NoDupIds(sessions)
    ensures NoDupIds(RemoveFirst(sessions, id))
    ensures !Registered(RemoveFirst(sessions, id), id)
  {
    var i := FindIndex(sessions, id);
    if i != -1 {
      var r := RemoveFirst(sessions, id);
      assert Registered(sessions, id) by {
        assert sessions[i].id == id;
      }
      forall a, b | 0 <= a < b < |r| ensures r[a].id != r[b].id {
        assert r[a] == sessions[if a < i then a else a + 1];
        assert r[b] == sessions[if b < i then b else b + 1];
      }
      forall k | 0 <= k < |r| ensures r[k].id != id {
        assert r[k] == sessions[if k < i then k else k + 1];
      }
    }
  }

  /** The guarded push at lines 182-186 and 214-218: register only when the id is absent. */
  function Register(sessions: seq<Session>, id: int, socket: nat): (r: seq<Session>)
    ensures Registered(r, id)
    ensures NoDupIds(sessions) ==> NoDupIds(r)
    ensures Registered(sessions, id) ==> r == sessions
    ensures !Registered(sessions, id) ==> r == sessions + [Session(id, socket)]
  {
    var i := FindIndex(sessions, id);
    if i == -1 then
      var r := sessions + [Session(id, socket)];
      assert r[|sessions|].id == id;
      r
    else
      assert sessions[i].id == id;
      sessions
  }

  // ---- deepCoerce ----

  predicate AllNumbers(items: seq<Value>) {
    forall i :: 0 <= i < |items| ==> items[i].Num?
  }

  /**
   * `deepCoerce`, as the tree it leaves behind: buffers are copied, arrays of
   * numbers only (the empty array too) become buffers, and every element of
   * another array and every field of an object is replaced by its coerced value.
   */
  function DeepCoerce(x: Value): (r: Value)
    ensures x.Null? || x.Undefined? ==> r == x
    ensures x.Bytes? ==> r == x
    ensures x.Arr? && AllNumbers(x.items) ==>
              r.Bytes? && |r.data| == |x.items|
              && forall i :: 0 <= i < |x.items| ==> (r.data[i] as int - x.items[i].n) % 256 == 0
    ensures x.Arr? && !AllNumbers(x.items) ==> r.Arr? && |r.items| == |x.items|
    ensures x.Arr? && !AllNumbers(x.items) ==> forall i :: 0 <= i < |x.items| ==> r.items[i] == DeepCoerce(x.items[i])
    ensures x.Obj? ==> r.Obj? && r.fields.Keys == x.fields.Keys
    ensures x.Obj? ==> forall k :: k in x.fields ==> r.fields[k] == DeepCoerce(x.fields[k])
    ensures x.Num? || x.Str? || x.Bool? ==> r == x
  {
    match x
    case Bytes(d) => Bytes(d)
    case Arr(items) =>
      if AllNumbers(items) then Bytes(seq(|items|, i requires 0 <= i < |items| => ByteOf(items[i].n)))
      else Arr(seq(|items|, i requires 0 <= i < |items| => DeepCoerce(items[i])))
    case Obj(m) => Obj(map k | k in m :: DeepCoerce(m[k]))
    case _ => x
  }

  /** No array of numbers only is left anywhere in the tree. */
  predicate Coerced(v: Value) {
    match v
    case Arr(items) => !AllNumbers(items) && forall i :: 0 <= i < |items| ==> Coerced(items[i])
    case Obj(m) => forall k :: k in m ==> Coerced(m[k])
    case _ => true
  }

  /** A number is never turned into something else, nor anything else into a number. */
  lemma DeepCoerceKeepsNumbers(x: Value)
    ensures DeepCoerce(x).Num? <==> x.Num?
  {
  }

  /** After `deepCoerce` no array of numbers is left. */
  lemma {:induction false} DeepCoerceCoerces(x: Value)
    ensures Coerced(DeepCoerce(x))
  {
    match x
    case Arr(items) =>
      if !AllNumbers(items) {
        var r := DeepCoerce(x);
        var k :| 0 <= k < |items| && !items[k].Num?;
        DeepCoerceKeepsNumbers(items[k]);
        assert !r.items[k].Num?;
        forall i | 0 <= i < |items| ensures Coerced(r.items[i]) {
          DeepCoerceCoerces(items[i]);
        }
      }
    case Obj(m) =>
      forall k | k in m ensures Coerced(DeepCoerce(m[k])) {
        DeepCoerceCoerces(m[k]);
      }
    case _ =>
  }

  /** `deepCoerce` leaves an already coerced tree as it is. */
  lemma {:induction false} DeepCoerceFixes(x: Value)
    requires Coerced(x)
    ensures DeepCoerce(x) == x
  {
    match x
    case Arr(items) =>
      forall i | 0 <= i < |items| ensures DeepCoerce(items[i]) == items[i] {
        DeepCoerceFixes(items[i]);
      }
    case Obj(m) =>
      forall k | k in m ensures DeepCoerce(m[k]) == m[k] {
        DeepCoerceFixes(m[k]);
      }
    case _ =>
  }

  /**
   * `deepCoerce` is idempotent, so a sub-object reached twice through two
   * references is coerced to the same tree as one reached once.
   */
  lemma {:induction false} DeepCoerceIdempotent(x: Value)
    ensures DeepCoerce(DeepCoerce(x)) == DeepCoerce(x)
  {
    DeepCoerceCoerces(x);
    DeepCoerceFixes(DeepCoerce(x));
  }

  // ---- connection.update ----

  /** The fields of the tenant row (`whatsappUpdate`) the handler writes. */
  datatype Record = Record(status: string, qrcode: string, session: string, retries: int)

  datatype Effect =
    | Persist(record: Record)                   // whatsappUpdate.update(…), the row afterwards
    | DeleteBaileys(id: int)                    // DeleteBaileysService(id)
    | Emit(room: string, event: string, record: Record)
    | Logout(socket: nat)                       // sessions[i].logout(), failure ignored
    | CloseSocket(socket: nat)                  // ….ws.close(), failure ignored
    | ScheduleRestart(id: int, delayMs: nat)    // setTimeout(StartWhatsAppSession, delayMs)
    | Resolve(socket: nat)                      // resolve(wsocket) of initWASocket

  const RestartDelayMs: nat := 2000
  const QrLimit: int := 3

  /** `error.code`: absent, a number, or something else (a string such as "ECONNRESET"). */
  datatype ErrorCode = NoCode | NumCode(n: int) | OtherCode

  /** `lastDisconnect.error`: the Boom `output.statusCode`, if any, and the plain `code`. */
  datatype DisconnectError = DisconnectError(statusCode: Option<int>, code: ErrorCode)

  datatype Phase = Close | Open | Connecting

  datatype Update = Update(connection: Option<Phase>, lastDisconnect: Option<DisconnectError>, qr: Option<string>)

  /**
   * What one handler closes over: the tenant id, the company id as it prints
   * in a template string, the socket, and `DisconnectReason.loggedOut`.
   */
  datatype Config = Config(id: int, company: string, socket: nat, loggedOut: int)

  function Room(cfg: Config): string {
    "company-" + cfg.company + "-mainchannel"
  }

  function SessionEvent(cfg: Config): string {
    "company-" + cfg.company + "-whatsappSession"
  }

  /** `statusCode || code`: a status code of 0 falls through to `code`. */
  function CloseCode(ld: Option<DisconnectError>): (r: ErrorCode)
    ensures ld.None? ==> r == NoCode
    ensures ld.Some? && ld.value.statusCode.Some? && ld.value.statusCode.value != 0 ==> r == NumCode(ld.value.statusCode.value)
    ensures ld.Some? && ld.value.statusCode in {None, Some(0)} ==> r == ld.value.code
    ensures r == NumCode(0) ==> ld.Some? && ld.value.code == NumCode(0)
  {
    match ld
    case None => NoCode
    case Some(e) => if e.statusCode.Some? && e.statusCode.value != 0 then NumCode(e.statusCode.value) else e.code
  }

  predicate AuthInvalidated(cfg: Config, code: ErrorCode) {
    code == NumCode(403) || code == NumCode(cfg.loggedOut)
  }

  /**
   * Everything one event can change: the handler's own row, local QR counter
   * and listener, and the module's registry, QR counter map and effect log.
   */
  datatype State = State(
    record: Record,
    retriesQrCode: int,
    listening: bool,
    sessions: seq<Session>,
    qrMap: map<int, int>,
    effects: seq<Effect>)

  function OnClose(cfg: Config, st: State, code: ErrorCode): (r: State)
    ensures r.qrMap == st.qrMap && r.retriesQrCode == st.retriesQrCode && r.listening == st.listening
    ensures r.sessions == RemoveFirst(st.sessions, cfg.id)
    ensures AuthInvalidated(cfg, code) ==> r.record == st.record.(status := "PENDING", session := "")
    ensures !AuthInvalidated(cfg, code) ==> r.record == st.record
    ensures |r.effects| > |st.effects| && r.effects[..|st.effects|] == st.effects
    ensures r.effects[|r.effects| - 1] == ScheduleRestart(cfg.id, RestartDelayMs)
    ensures forall i :: |st.effects| <= i < |r.effects| ==> !r.effects[i].Logout? && !r.effects[i].CloseSocket?
  {
    if AuthInvalidated(cfg, code) then
      var rec := st.record.(status := "PENDING", session := "");
      st.(record := rec,
          sessions := RemoveFirst(st.sessions, cfg.id),
          effects := st.effects + [Persist(rec), DeleteBaileys(cfg.id), Emit(Room(cfg), SessionEvent(cfg), rec),
                                   ScheduleRestart(cfg.id, RestartDelayMs)])
    else
      st.(sessions := RemoveFirst(st.sessions, cfg.id),
          effects := st.effects + [ScheduleRestart(cfg.id, RestartDelayMs)])
  }

  function OnOpen(cfg: Config, st: State): (r: State)
    ensures r.qrMap == st.qrMap && r.retriesQrCode == st.retriesQrCode && r.listening == st.listening
    ensures Registered(r.sessions, cfg.id) && (Registered(st.sessions, cfg.id) ==> r.sessions == st.sessions)
    ensures r.sessions == Register(st.sessions, cfg.id, cfg.socket)
    ensures r.record.status == "CONNECTED" && r.record.qrcode == "" && r.record.retries == 0
    ensures r.record.session == st.record.session
    ensures r.effects == st.effects + [Persist(r.record), Emit(Room(cfg), SessionEvent(cfg), r.record), Resolve(cfg.socket)]
  {
    var rec := st.record.(status := "CONNECTED", qrcode := "", retries := 0);
    st.(record := rec,
        sessions := Register(st.sessions, cfg.id, cfg.socket),
        effects := st.effects + [Persist(rec), Emit(Room(cfg), SessionEvent(cfg), rec), Resolve(cfg.socket)])
  }

  /** `retriesQrCodeMap.get(id) && retriesQrCodeMap.get(id)! >= 3`. */
  function QrCapReached(cfg: Config, qrMap: map<int, int>): (r: bool)
    ensures r <==> cfg.id in qrMap && qrMap[cfg.id] >= QrLimit
  {
    cfg.id in qrMap && qrMap[cfg.id] != 0 && qrMap[cfg.id] >= QrLimit
  }

  function OnQr(cfg: Config, st: State, qr: string): (r: State)
    ensures QrCapReached(cfg, st.qrMap) ==>
              !r.listening && r.qrMap == st.qrMap - {cfg.id} && r.sessions == st.sessions
              && r.record.status == "DISCONNECTED" && r.record.qrcode == ""
              && r.retriesQrCode == st.retriesQrCode && r.record.retries == st.record.retries
    ensures !QrCapReached(cfg, st.qrMap) ==>
              r.listening == st.listening && r.retriesQrCode == st.retriesQrCode + 1
              && r.qrMap == st.qrMap[cfg.id := st.retriesQrCode + 1] && Registered(r.sessions, cfg.id)
              && r.sessions == Register(st.sessions, cfg.id, cfg.socket)
              && r.record.status == "qrcode" && r.record.qrcode == qr && r.record.retries == 0
    ensures r.record.session == st.record.session
    ensures QrCapReached(cfg, st.qrMap) ==>
              r.effects == st.effects + [Persist(r.record), DeleteBaileys(cfg.id),
                                         Emit(Room(cfg), "whatsappSession", r.record), CloseSocket(cfg.socket)]
    ensures !QrCapReached(cfg, st.qrMap) ==>
              r.effects == st.effects + [Persist(r.record), Emit(Room(cfg), SessionEvent(cfg), r.record)]
  {
    if QrCapReached(cfg, st.qrMap) then
      var rec := st.record.(status := "DISCONNECTED", qrcode := "");
      st.(record := rec,
          listening := false,
          qrMap := st.qrMap - {cfg.id},
          effects := st.effects + [Persist(rec), DeleteBaileys(cfg.id), Emit(Room(cfg), "whatsappSession", rec),
                                   CloseSocket(cfg.socket)])
    else
      var n := st.retriesQrCode + 1;
      var rec := st.record.(qrcode := qr, status := "qrcode", retries := 0);
      st.(record := rec,
          retriesQrCode := n,
          qrMap := st.qrMap[cfg.id := n],
          sessions := Register(st.sessions, cfg.id, cfg.socket),
          effects := st.effects + [Persist(rec), Emit(Room(cfg), SessionEvent(cfg), rec)])
  }

  /**
   * One `connection.update` event: the close branch first (it does not
   * return), then the open branch (which returns), then the QR branch. Once
   * the listeners are removed the handler no longer runs.
   */
  function Step(cfg: Config, st: State, ev: Update): (r: State)
    ensures !st.listening ==> r == st
    ensures ev.connection !in {Some(Close), Some(Open)} && ev.qr.None? ==> r == st
    ensures |r.effects| >= |st.effects| && r.effects[..|st.effects|] == st.effects
    ensures forall other :: other != cfg.id ==>
              (other in r.qrMap <==> other in st.qrMap) && (other in st.qrMap ==> r.qrMap[other] == st.qrMap[other])
  {
    if !st.listening then st
    else
      var closed := if ev.connection == Some(Close) then OnClose(cfg, st, CloseCode(ev.lastDisconnect)) else st;
      if ev.connection == Some(Open) then OnOpen(cfg, closed)
      else if ev.qr.Some? then OnQr(cfg, closed, ev.qr.value)
      else closed
  }

  function QrEvent(qr: string): Update {
    Update(None, None, Some(qr))
  }

  // ---- properties of the handler ----

  /** No event lets the registry hold two sockets for one tenant. */
  lemma StepKeepsIdsUnique(cfg: Config, st: State, ev: Update)
    requires NoDupIds(st.sessions)
    ensures NoDupIds(Step(cfg, st, ev).sessions)
  {
    if st.listening && ev.connection == Some(Close) {
      RemoveFirstUnique(st.sessions, cfg.id);
    }
  }

  /** The guarded push leaves the other tenants' entries as they were. */
  lemma RegisterKeepsOthers(sessions: seq<Session>, id: int, socket: nat)
    ensures Others(Register(sessions, id, socket), id) == Others(sessions, id)
  {
    if !Registered(sessions, id) {
      OthersAppend(sessions, [Session(id, socket)], id);
      assert [Session(id, socket)][1..] == [];
    }
  }

  /** A handler only ever adds or removes its own tenant's entry in the registry. */
  lemma StepKeepsOtherTenants(cfg: Config, st: State, ev: Update)
    ensures Others(Step(cfg, st, ev).sessions, cfg.id) == Others(st.sessions, cfg.id)
  {
    if st.listening {
      var closed := if ev.connection == Some(Close) then OnClose(cfg, st, CloseCode(ev.lastDisconnect)) else st;
      assert Others(closed.sessions, cfg.id) == Others(st.sessions, cfg.id) by {
        RemoveFirstSpec(st.sessions, cfg.id);
      }
      if ev.connection == Some(Open) {
        RegisterKeepsOthers(closed.sessions, cfg.id, cfg.socket);
      } else if ev.qr.Some? && !QrCapReached(cfg, closed.qrMap) {
        RegisterKeepsOthers(closed.sessions, cfg.id, cfg.socket);
        assert OnQr(cfg, closed, ev.qr.value).sessions == Register(closed.sessions, cfg.id, cfg.socket);
      }
    }
  }

  /**
   * Close with 403 or loggedOut: the row becomes PENDING with an empty
   * session, then the Baileys data is deleted, the company is notified, the
   * socket is deregistered without logout and a restart is scheduled.
   */
  lemma CloseLoggedOut(cfg: Config, st: State, err: DisconnectError)
    requires st.listening && NoDupIds(st.sessions)
    requires AuthInvalidated(cfg, CloseCode(Some(err)))
    ensures var s := Step(cfg, st, Update(Some(Close), Some(err), None));
            var rec := s.record;
            rec.status == "PENDING" && rec.session == ""
            && rec.qrcode == st.record.qrcode && rec.retries == st.record.retries
            && s.effects == st.effects + [Persist(rec), DeleteBaileys(cfg.id), Emit(Room(cfg), SessionEvent(cfg), rec),
                                          ScheduleRestart(cfg.id, 2000)]
            && !Registered(s.sessions, cfg.id) && Others(s.sessions, cfg.id) == Others(st.sessions, cfg.id)
            && s.qrMap == st.qrMap && s.listening
  {
    RemoveFirstUnique(st.sessions, cfg.id);
    RemoveFirstSpec(st.sessions, cfg.id);
  }

  /** Any other close: deregister without logout and restart; the stored session is kept. */
  lemma CloseTransient(cfg: Config, st: State, ld: Option<DisconnectError>)
    requires st.listening && NoDupIds(st.sessions)
    requires !AuthInvalidated(cfg, CloseCode(ld))
    ensures var s := Step(cfg, st, Update(Some(Close), ld, None));
            s.record == st.record
            && s.effects == st.effects + [ScheduleRestart(cfg.id, 2000)]
            && !Registered(s.sessions, cfg.id) && Others(s.sessions, cfg.id) == Others(st.sessions, cfg.id)
            && s.qrMap == st.qrMap && s.listening
  {
    RemoveFirstUnique(st.sessions, cfg.id);
    RemoveFirstSpec(st.sessions, cfg.id);
  }

  /**
   * Open: the row becomes CONNECTED with no QR code and zero retries, and is
   * written before the notification and before the start promise resolves.
   * The socket is registered; a QR code in the same event is ignored; the QR
   * counter map keeps its entry.
   */
  lemma OpenConnects(cfg: Config, st: State, qr: Option<string>)
    requires st.listening
    ensures var s := Step(cfg, st, Update(Some(Open), None, qr));
            var rec := s.record;
            rec.status == "CONNECTED" && rec.qrcode == "" && rec.retries == 0 && rec.session == st.record.session
            && s.effects == st.effects + [Persist(rec), Emit(Room(cfg), SessionEvent(cfg), rec), Resolve(cfg.socket)]
            && Registered(s.sessions, cfg.id)
            && (!Registered(st.sessions, cfg.id) ==> s.sessions == st.sessions + [Session(cfg.id, cfg.socket)])
            && (Registered(st.sessions, cfg.id) ==> s.sessions == st.sessions)
            && s.qrMap == st.qrMap && s.retriesQrCode == st.retriesQrCode
  {
  }

  /**
   * Three QR codes, then the cap. Starting with no counter entry and a fresh
   * local counter, events 1 to 3 store the code with status "qrcode" and set
   * the counter to 1, 2, 3; the 4th marks the row DISCONNECTED, clears the
   * code, deletes the Baileys data once, notifies under the bare event name,
   * closes the socket, stops listening and drops the counter entry, while
   * the socket stays in the registry.
   */
  lemma {:induction false} QrCap(cfg: Config, st: State, q1: string, q2: string, q3: string, q4: string)
    requires st.listening && st.retriesQrCode == 0 && cfg.id !in st.qrMap
    ensures var s1 := Step(cfg, st, QrEvent(q1));
            var s2 := Step(cfg, s1, QrEvent(q2));
            var s3 := Step(cfg, s2, QrEvent(q3));
            var s4 := Step(cfg, s3, QrEvent(q4));
            s1.record.status == "qrcode" && s1.record.qrcode == q1 && s1.qrMap[cfg.id] == 1
            && s2.record.status == "qrcode" && s2.record.qrcode == q2 && s2.qrMap[cfg.id] == 2
            && s3.record.status == "qrcode" && s3.record.qrcode == q3 && s3.qrMap[cfg.id] == 3
            && Registered(s3.sessions, cfg.id)
            && s4.record.status == "DISCONNECTED" && s4.record.qrcode == ""
            && s4.effects == s3.effects + [Persist(s4.record), DeleteBaileys(cfg.id),
                                           Emit(Room(cfg), "whatsappSession", s4.record), CloseSocket(cfg.socket)]
            && cfg.id !in s4.qrMap && !s4.listening && s4.sessions == s3.sessions
  {
    var s1 := Step(cfg, st, QrEvent(q1));
    assert !QrCapReached(cfg, st.qrMap);
    var s2 := Step(cfg, s1, QrEvent(q2));
    assert !QrCapReached(cfg, s1.qrMap);
    var s3 := Step(cfg, s2, QrEvent(q3));
    assert !QrCapReached(cfg, s2.qrMap);
    assert QrCapReached(cfg, s3.qrMap);
  }

  /**
   * The local counter starts at 0 for every socket while the map outlives it:
   * a leftover entry below the cap is overwritten with 1, and one at the cap
   * (three codes shown by an earlier socket, not cleared by open or close)
   * makes the new socket's first QR event the cap.
   */
  lemma NewSocketCounter(cfg: Config, st: State, qr: string)
    requires st.listening && st.retriesQrCode == 0 && cfg.id in st.qrMap
    ensures var s := Step(cfg, st, QrEvent(qr));
            (0 < st.qrMap[cfg.id] < 3 ==> s.qrMap[cfg.id] == 1 && s.record.status == "qrcode")
            && (st.qrMap[cfg.id] >= 3 ==> s.record.status == "DISCONNECTED" && !s.listening)
  {
  }

  /**
   * An event carrying both `close` and `qr` runs both branches: below the cap
   * the QR branch registers the socket again right after the close branch
   * removed it.
   */
  lemma CloseWithQrReregisters(cfg: Config, st: State, ld: Option<DisconnectError>, qr: string)
    requires st.listening && NoDupIds(st.sessions) && !QrCapReached(cfg, st.qrMap)
    ensures var s := Step(cfg, st, Update(Some(Close), ld, Some(qr)));
            Registered(s.sessions, cfg.id) && s.record.status == "qrcode"
            && s.sessions == RemoveFirst(st.sessions, cfg.id) + [Session(cfg.id, cfg.socket)]
            && ScheduleRestart(cfg.id, 2000) in s.effects[|st.effects|..]
  {
    RemoveFirstUnique(st.sessions, cfg.id);
    var closed := OnClose(cfg, st, CloseCode(ld));
    var s := Step(cfg, st, Update(Some(Close), ld, Some(qr)));
    var last := |closed.effects| - 1;
    assert closed.effects[last] == ScheduleRestart(cfg.id, 2000);
    assert s.effects[last] == ScheduleRestart(cfg.id, 2000);
    assert s.effects[|st.effects|..][last - |st.effects|] == ScheduleRestart(cfg.id, 2000);
  }

  // ---- the module state and the handler, updated in place ----

  /** The module-level state of wbot.ts: `sessions`, `retriesQrCodeMap`, and the effect log. */
  class Registry {
    var sessions: seq<Session>
    var retriesQrCodeMap: map<int, int>
    var effects: seq<Effect>

    constructor ()
      ensures sessions == [] && retriesQrCodeMap == map[] && effects == []
    {
      sessions := [];
      retriesQrCodeMap := map[];
      effects := [];
    }

    /** `getWbot`: the first socket registered for the id, or ERR_WAPP_NOT_INITIALIZED. */
    function GetWbot(id: int): (r: Result<Session, string>)
      reads this
      ensures r.Err? <==> !Registered(sessions, id)
      ensures r.Err? ==> r.error == "ERR_WAPP_NOT_INITIALIZED"
      ensures r.Ok? ==> exists i :: 0 <= i < |sessions| && sessions[i] == r.value && r.value.id == id
                                   && forall j :: 0 <= j < i ==> sessions[j].id != id
    {
      var i := FindIndex(sessions, id);
      if i == -1 then Err("ERR_WAPP_NOT_INITIALIZED") else Ok(sessions[i])
    }

    /**
     * `removeWbot(id, isLogout)`: with `isLogout` the socket is logged out and
     * closed, each failure ignored; the call itself never fails.
     */
    method RemoveWbot(id: int, isLogout: bool)
      modifies this
      ensures sessions == RemoveFirst(old(sessions), id)
      ensures retriesQrCodeMap == old(retriesQrCodeMap)
      ensures !isLogout || !Registered(old(sessions), id) ==> effects == old(effects)
      ensures isLogout && Registered(old(sessions), id) ==>
                var s := old(sessions)[FindIndex(old(sessions), id)];
                effects == old(effects) + [Logout(s.socket), CloseSocket(s.socket)]
    {
      var i := FindIndex(sessions, id);
      if i != -1 {
        if isLogout {
          effects := effects + [Logout(sessions[i].socket)];
          effects := effects + [CloseSocket(sessions[i].socket)];
        }
        sessions := sessions[..i] + sessions[i + 1..];
      }
    }

    /** Record an effect the handler starts. */
    method Log(e: Effect)
      modifies this
      ensures effects == old(effects) + [e]
      ensures sessions == old(sessions) && retriesQrCodeMap == old(retriesQrCodeMap)
    {
      effects := effects + [e];
    }

    /** The guarded push: register the socket under the id unless one already is. */
    method RegisterSocket(id: int, socket: nat)
      modifies this
      ensures sessions == Register(old(sessions), id, socket)
      ensures effects == old(effects) && retriesQrCodeMap == old(retriesQrCodeMap)
    {
      var i := FindIndex(sessions, id);
      if i == -1 {
        sessions := sessions + [Session(id, socket)];
      }
    }
  }

  /** The `connection.update` listener of one `initWASocket` call. */
  class ConnectionHandler {
    const cfg: Config
    const registry: Registry
    var record: Record
    var retriesQrCode: int
    var listening: bool

    /** `let retriesQrCode = 0` and the listener installed. */
    constructor (cfg: Config, registry: Registry, record: Record)
      ensures this.cfg == cfg && this.registry == registry && this.record == record
      ensures retriesQrCode == 0 && listening
    {
      this.cfg := cfg;
      this.registry := registry;
      this.record := record;
      retriesQrCode := 0;
      listening := true;
    }

    ghost function View(): State
      reads this, registry
    {
      State(record, retriesQrCode, listening, registry.sessions, registry.retriesQrCodeMap, registry.effects)
    }

    method OnConnectionUpdate(ev: Update)
      modifies this, registry
      ensures View() == Step(cfg, old(View()), ev)
    {
      if !listening {
        return;
      }
      if ev.connection == Some(Close) {
        HandleClose(CloseCode(ev.lastDisconnect));
      }
      if ev.connection == Some(Open) {
        HandleOpen();
        return;
      }
      if ev.qr.Some? {
        HandleQr(ev.qr.value);
      }
    }

    /** Lines 150-168. */
    method HandleClose(code: ErrorCode)
      modifies this, registry
      ensures View() == OnClose(cfg, old(View()), code)
    {
      ghost var before := View();
      if code == NumCode(403) || code == NumCode(cfg.loggedOut) {
        record := record.(status := "PENDING", session := "");
        registry.Log(Persist(record));
        registry.Log(DeleteBaileys(cfg.id));
        registry.Log(Emit(Room(cfg), SessionEvent(cfg), record));
        registry.RemoveWbot(cfg.id, false);
        registry.Log(ScheduleRestart(cfg.id, RestartDelayMs));
        assert registry.effects == before.effects + [Persist(record), DeleteBaileys(cfg.id),
          Emit(Room(cfg), SessionEvent(cfg), record), ScheduleRestart(cfg.id, RestartDelayMs)];
      } else {
        registry.RemoveWbot(cfg.id, false);
        registry.Log(ScheduleRestart(cfg.id, RestartDelayMs));
      }
      assert registry.sessions == RemoveFirst(before.sessions, cfg.id);
      assert registry.retriesQrCodeMap == before.qrMap;
    }

    /** Lines 170-188. */
    method HandleOpen()
      modifies this, registry
      ensures View() == OnOpen(cfg, old(View()))
    {
      record := record.(status := "CONNECTED", qrcode := "", retries := 0);
      registry.Log(Persist(record));
      registry.Log(Emit(Room(cfg), SessionEvent(cfg), record));
      registry.RegisterSocket(cfg.id, cfg.socket);
      registry.Log(Resolve(cfg.socket));
    }

    /** Lines 190-225. */
    method HandleQr(qr: string)
      modifies this, registry
      ensures View() == OnQr(cfg, old(View()), qr)
    {
      var counts := registry.retriesQrCodeMap;
      if cfg.id in counts && counts[cfg.id] != 0 && counts[cfg.id] >= QrLimit {
        record := record.(status := "DISCONNECTED", qrcode := "");
        registry.Log(Persist(record));
        registry.Log(DeleteBaileys(cfg.id));
        registry.Log(Emit(Room(cfg), "whatsappSession", record));
        listening := false;
        registry.Log(CloseSocket(cfg.socket));
        registry.retriesQrCodeMap := registry.retriesQrCodeMap - {cfg.id};
      } else {
        retriesQrCode := retriesQrCode + 1;
        registry.retriesQrCodeMap := registry.retriesQrCodeMap[cfg.id := retriesQrCode];
        record := record.(qrcode := qr, status := "qrcode", retries := 0);
        registry.Log(Persist(record));
        registry.RegisterSocket(cfg.id, cfg.socket);
        registry.Log(Emit(Room(cfg), SessionEvent(cfg), record));
      }
    }
  }
}
