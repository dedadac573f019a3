/** The tool host: one proposal at a time, a human decision, a signed receipt, and a signed
    transaction that is held until a separate decision to send it. */
module ToolHost {
  import opened Common
  import opened Bytes
  import opened Decimal
  import opened Tx

  const MAX_MESSAGE_BYTES: nat := 4096

  // ---------------------------------------------------------------- data

  datatype ToolKind =
    DeviceDid | WalletAddress | WalletSign | WalletSignTx | ChainBalance | ChainNonce | ChainTx | Broadcast

  /** A message line: its key and what is filled in. */
  datatype Line = Line(key: string, args: seq<string>)

  /** A receipt before the device key signs it. */
  datatype Body = Body(
    id: nat, actor: string, kind: ToolKind, arguments: Json, decision: Decision, confirmed: bool,
    outcome: Line, tier: Tier, recordedAtMs: nat
  )
  datatype Receipt = Receipt(body: Body, signature: string)

  datatype Pending = Pending(id: nat, kind: ToolKind, arguments: Json, message: Option<string>)
  datatype Held = Held(raw: string, arguments: Json)

  /** The seven fields the wallet signs. */
  datatype Legacy = Legacy(
    chainId: nat, nonce: nat, gasPrice: nat, gasLimit: nat, to: seq<Byte>, value: seq<Byte>, data: seq<Byte>
  )

  /** What the wallet is asked for. */
  datatype WalletRequest = SignTx(tx: Legacy) | SignMessage(message: string)

  function LegacyOf(tx: UnsignedTx): Legacy {
    Legacy(tx.chainId, tx.nonce, tx.gasPrice, tx.gasLimit, tx.to, tx.value, tx.data)
  }

  /** The device key, the wallet and the chain, as they behave during one call. */
  datatype Env = Env(
    did: string,
    address: string,
    deviceSign: Body -> Option<string>,
    signPersonal: string -> Option<string>,
    signLegacy: Legacy -> Option<string>,
    parseEndpoint: string -> Option<string>,
    send: (string, string) -> Option<string>,
    request: (ToolKind, string) -> Option<string>,
    transport: (string, string) -> Option<string>,
    interpret: (ToolKind, string) -> Option<Option<string>>
  )

  datatype Host = Host(
    unlocked: bool,
    endpoint: string,
    nowMs: nat,
    nextId: nat,
    pending: Option<Pending>,
    held: Option<Held>,
    stagedRaw: Option<string>,
    receipts: seq<Receipt>
  )

  /** What one call did: the new host, the answer, what the wallet was asked to sign, what was sent. */
  datatype Outcome<T> = Outcome(
    host: Host, result: Result<T, string>, walletAsked: Option<WalletRequest>, sent: Option<string>
  )

  function Refuse<T>(h: Host, key: string): Outcome<T> {
    Outcome(h, Err(key), None, None)
  }

  function TierOf(kind: ToolKind): Tier {
    if kind.WalletSign? || kind.WalletSignTx? || kind.Broadcast? then L2 else L0
  }

  function KindOf(name: string): Option<ToolKind> {
    if name == "device_did" then Some(DeviceDid)
    else if name == "wallet_address" then Some(WalletAddress)
    else if name == "wallet_sign" then Some(WalletSign)
    else if name == "wallet_sign_tx" then Some(WalletSignTx)
    else if name == "chain_balance" then Some(ChainBalance)
    else if name == "chain_nonce" then Some(ChainNonce)
    else if name == "chain_tx" then Some(ChainTx)
    else None
  }

  // ---------------------------------------------------------------- propose

  function Member(v: Json, key: string): Option<string> {
    if v.Object? && key in v.fields && v.fields[key].Str? then Some(v.fields[key].s) else None
  }

  predicate IsTxHash(s: string) {
    var rest := StripHexPrefix(s);
    rest.Some? && |rest.value| == 64 && HexBytes(rest.value).Some?
  }

  function Prepare(kind: ToolKind, arguments: Json): Result<(Json, Option<string>), string> {
    match kind
    case DeviceDid | WalletAddress | ChainBalance | ChainNonce => Ok((Object(map[]), None))
    case ChainTx =>
      var hash := Member(arguments, "hash");
      var raw := Trim(if hash.Some? then hash.value else "");
      if IsTxHash(raw) then Ok((Object(map["hash" := Str(raw)]), Some(raw))) else Err("host-bad-hash")
    case WalletSignTx =>
      (match ParseUnsigned(arguments)
       case Err(code) => Err(if code == "raw" then "host-tx-raw" else "host-tx-fields")
       case Ok(tx) => Ok((Canonical(tx), Some(tx.toHex))))
    case Broadcast => Err("host-tx-raw")
    case WalletSign =>
      var raw := Member(arguments, "message");
      if raw.None? || Trim(raw.value) == "" then Err("host-missing-message")
      else if Utf8Len(Trim(raw.value)) > MAX_MESSAGE_BYTES then Err("host-message-long")
      else Ok((Object(map["message" := Str(Trim(raw.value))]), Some(Trim(raw.value))))
  }

  function Propose(h: Host, name: string, arguments: Json): Outcome<Pending> {
    if h.pending.Some? || h.held.Some? then Refuse(h, "host-pending")
    else if KindOf(name).None? then Refuse(h, "host-unknown-tool")
    else match Prepare(KindOf(name).value, arguments)
      case Err(key) => Refuse(h, key)
      case Ok((stored, message)) =>
        var p := Pending(h.nextId, KindOf(name).value, stored, message);
        Outcome(h.(nextId := h.nextId + 1, pending := Some(p)), Ok(p), None, None)
  }

  // ---------------------------------------------------------------- decide

  /** What running a tool gives: a line either way, a raw transaction, what the wallet was asked. */
  datatype Ran = Ran(ok: bool, line: Line, raw: Option<string>, walletAsked: Option<WalletRequest>)

  function Execute(env: Env, h: Host, p: Pending): Ran {
    match p.kind
    case DeviceDid => Ran(true, Line("host-did", [env.did]), None, None)
    case WalletAddress => Ran(true, Line("host-address", [env.address]), None, None)
    case WalletSign =>
      var message := if p.message.Some? then p.message.value else "";
      var signature := env.signPersonal(message);
      if signature.Some? then Ran(true, Line("host-signed", [signature.value, env.address]), None, Some(SignMessage(message)))
      else Ran(false, Line("host-wallet-failed", []), None, Some(SignMessage(message)))
    case WalletSignTx =>
      (match ParseUnsigned(p.arguments)
       case Err(_) => Ran(false, Line("host-tx-fields", []), None, None)
       case Ok(tx) =>
         var asked := LegacyOf(tx);
         match env.signLegacy(asked)
         case None => Ran(false, Line("host-wallet-failed", []), None, Some(SignTx(asked)))
         case Some(raw) => Ran(true, Line("host-tx-signed", [tx.toHex, tx.valueDec]), Some(raw), Some(SignTx(asked))))
    case Broadcast => Ran(false, Line("host-broadcast-held", []), None, None)
    case _ =>
      var endpoint := env.parseEndpoint(h.endpoint);
      if endpoint.None? then Ran(false, Line("host-no-rpc", []), None, None) else
        var body := env.request(p.kind, if p.message.Some? then p.message.value else "");
        if body.None? then Ran(false, Line("host-bad-hash", []), None, None) else
          var response := env.transport(endpoint.value, body.value);
          var fact := if response.Some? then env.interpret(p.kind, response.value) else None;
          if fact.None? then Ran(false, Line("host-rpc-failed", []), None, None)
          else Ran(true, FactLine(p.kind, fact.value), None, None)
  }

  /** What a chain read tells: a quantity, zero when the chain names none, or how a transaction stands. */
  function FactLine(kind: ToolKind, fact: Option<string>): Line {
    if kind.ChainTx? then
      Line("host-tx", [if fact == Some("ok") then "chain-tx-ok" else if fact == Some("fail") then "chain-tx-fail" else "chain-tx-pending"])
    else
      Line(if kind.ChainBalance? then "host-balance" else "host-nonce", [if fact.Some? then fact.value else "0"])
  }

  function Unsigned(env: Env, h: Host, p: Pending, decision: Decision, confirmed: bool, outcome: Line): Body {
    Body(p.id, env.did, p.kind, p.arguments, decision, confirmed, outcome, TierOf(p.kind), h.nowMs)
  }

  function Seal(env: Env, body: Body): Option<Receipt> {
    var signature := env.deviceSign(body);
    if signature.Some? then Some(Receipt(body, signature.value)) else None
  }

  function Confirm(env: Env, h: Host): Outcome<Receipt> {
    if h.pending.None? then Refuse(h, "host-nothing-pending") else
      var p := h.pending.value;
      var ran := if h.unlocked then Execute(env, h, p) else Ran(false, Line("host-locked", []), None, None);
      var decision := if ran.ok then Allowed else Denied;
      var receipt := Seal(env, Unsigned(env, h, p, decision, true, ran.line));
      if receipt.None? then
        Outcome(h.(stagedRaw := None), Err("host-device-sign-failed"), ran.walletAsked, None)
      else
        var held := if p.kind.WalletSignTx? && ran.raw.Some? then Some(Held(ran.raw.value, p.arguments)) else h.held;
        Outcome(h.(stagedRaw := None, held := held, pending := None, receipts := h.receipts + [receipt.value]),
                Ok(receipt.value), ran.walletAsked, None)
  }

  function Cancel(env: Env, h: Host): Outcome<Receipt> {
    if h.pending.None? then Refuse(h, "host-nothing-pending") else
      var receipt := Seal(env, Unsigned(env, h, h.pending.value, Cancelled, false, Line("host-cancelled", [])));
      if receipt.None? then Refuse(h, "host-device-sign-failed")
      else Outcome(h.(pending := None, receipts := h.receipts + [receipt.value]), Ok(receipt.value), None, None)
  }

  // ---------------------------------------------------------------- send

  predicate IsSignedRaw(raw: string) {
    var rest := StripHexPrefix(raw);
    rest.Some? && 64 <= |rest.value| <= 16384 && |rest.value| % 2 == 0 && HexBytes(rest.value).Some?
  }

  function FinishBroadcast(
    env: Env, h: Host, decision: Decision, confirmed: bool, outcome: Line, sent: Option<string>): (o: Outcome<Receipt>)
    requires h.held.Some?
    ensures o.sent == sent
  {
    var p := Pending(h.nextId, Broadcast, h.held.value.arguments, None);
    var receipt := Seal(env, Unsigned(env, h, p, decision, confirmed, outcome));
    if receipt.None? then Outcome(h, Err("host-device-sign-failed"), None, sent)
    else Outcome(h.(nextId := h.nextId + 1, held := None, receipts := h.receipts + [receipt.value]),
                 Ok(receipt.value), None, sent)
  }

  function SendHeld(env: Env, h: Host): Outcome<Receipt> {
    if h.held.None? then Refuse(h, "host-nothing-pending")
    else if !h.unlocked then FinishBroadcast(env, h, Denied, true, Line("host-broadcast-locked", []), None)
    else
      var raw, endpoint := h.held.value.raw, env.parseEndpoint(h.endpoint);
      if endpoint.None? then FinishBroadcast(env, h, Denied, true, Line("host-no-rpc", []), None)
      else if !IsSignedRaw(raw) then Refuse(h, "host-tx-raw")
      else match env.send(endpoint.value, raw)
        case Some(hash) => FinishBroadcast(env, h, Allowed, true, Line("host-broadcast", [hash]), Some(raw))
        case None => FinishBroadcast(env, h, Denied, true, Line("host-broadcast-failed", []), Some(raw))
  }

  function DeclineBroadcast(env: Env, h: Host): Outcome<Receipt> {
    if h.held.None? then Refuse(h, "host-nothing-pending")
    else FinishBroadcast(env, h, Cancelled, false, Line("host-broadcast-held", []), None)
  }

  // ---------------------------------------------------------------- the host as it runs

  class ToolHost {
    var unlocked: bool
    var endpoint: string
    var nowMs: nat
    var nextId: nat
    var pending: Option<Pending>
    var held: Option<Held>
    var stagedRaw: Option<string>
    var receipts: seq<Receipt>

    ghost function State(): Host
      reads this
    {
      Host(unlocked, endpoint, nowMs, nextId, pending, held, stagedRaw, receipts)
    }

    constructor ()
      ensures State() == NewHost()
    {
      unlocked, endpoint, nowMs, nextId := false, "", 0, 1;
      pending, held, stagedRaw, receipts := None, None, None, [];
    }

    method SetNextId(id: nat)
      modifies this`nextId
      ensures nextId == if id > old(nextId) then id else old(nextId)
    {
      if id > nextId {
        nextId := id;
      }
    }

    method ProposeTool(name: string, arguments: Json) returns (result: Result<Pending, string>)
      modifies this`nextId, this`pending
      ensures Outcome(State(), result, None, None) == Propose(old(State()), name, arguments)
    {
      if pending.Some? || held.Some? {
        return Err("host-pending");
      }
      var kind := KindOf(name);
      if kind.None? {
        return Err("host-unknown-tool");
      }
      match Prepare(kind.value, arguments) {
        case Err(key) => result := Err(key);
        case Ok((stored, message)) =>
          var p := Pending(nextId, kind.value, stored, message);
          nextId := nextId + 1;
          pending := Some(p);
          result := Ok(p);
      }
    }

    /** Run the tool; a signed transaction is staged, not returned. */
    method ExecutePending(env: Env, p: Pending) returns (ok: bool, line: Line, ghost walletAsked: Option<WalletRequest>)
      modifies this`stagedRaw
      ensures var ran := Execute(env, old(State()), p);
        ok == ran.ok && line == ran.line && walletAsked == ran.walletAsked &&
        stagedRaw == if ran.raw.Some? then ran.raw else old(stagedRaw)
    {
      hide ParseUnsigned;
      walletAsked := None;
      match p.kind {
        case DeviceDid =>
          ok, line := true, Line("host-did", [env.did]);
        case WalletAddress =>
          ok, line := true, Line("host-address", [env.address]);
        case WalletSign =>
          var message := if p.message.Some? then p.message.value else "";
          walletAsked := Some(SignMessage(message));
          var signature := env.signPersonal(message);
          ok := signature.Some?;
          line := if ok then Line("host-signed", [signature.value, env.address]) else Line("host-wallet-failed", []);
        case WalletSignTx =>
          match ParseUnsigned(p.arguments) {
            case Err(_) =>
              ok, line := false, Line("host-tx-fields", []);
            case Ok(tx) =>
              walletAsked := Some(SignTx(LegacyOf(tx)));
              var raw := env.signLegacy(LegacyOf(tx));
              if raw.Some? {
                stagedRaw := raw;
                ok, line := true, Line("host-tx-signed", [tx.toHex, tx.valueDec]);
              } else {
                ok, line := false, Line("host-wallet-failed", []);
              }
          }
        case Broadcast =>
          ok, line := false, Line("host-broadcast-held", []);
        case _ =>
          ok, line := ExecuteChain(env, p);
      }
    }

    method ExecuteChain(env: Env, p: Pending) returns (ok: bool, line: Line)
      requires p.kind.ChainBalance? || p.kind.ChainNonce? || p.kind.ChainTx?
      ensures ok == Execute(env, State(), p).ok && line == Execute(env, State(), p).line
    {
      var url := env.parseEndpoint(endpoint);
      if url.None? {
        return false, Line("host-no-rpc", []);
      }
      var body := env.request(p.kind, if p.message.Some? then p.message.value else "");
      if body.None? {
        return false, Line("host-bad-hash", []);
      }
      var response := env.transport(url.value, body.value);
      if response.None? {
        return false, Line("host-rpc-failed", []);
      }
      var fact := env.interpret(p.kind, response.value);
      if fact.None? {
        return false, Line("host-rpc-failed", []);
      }
      ok := true;
      if p.kind.ChainBalance? {
        line := Line("host-balance", [if fact.value.Some? then fact.value.value else "0"]);
      } else if p.kind.ChainNonce? {
        line := Line("host-nonce", [if fact.value.Some? then fact.value.value else "0"]);
      } else {
        var status := "chain-tx-pending";
        if fact.value == Some("ok") {
          status := "chain-tx-ok";
        } else if fact.value == Some("fail") {
          status := "chain-tx-fail";
        }
        line := Line("host-tx", [status]);
      }
    }

    method SealReceipt(env: Env, p: Pending, decision: Decision, confirmed: bool, outcome: Line)
      returns (receipt: Option<Receipt>)
      ensures receipt == Seal(env, Unsigned(env, State(), p, decision, confirmed, outcome))
    {
      var body := Body(p.id, env.did, p.kind, p.arguments, decision, confirmed, outcome, TierOf(p.kind), nowMs);
      var signature := env.deviceSign(body);
      receipt := if signature.Some? then Some(Receipt(body, signature.value)) else None;
    }

    method ConfirmPending(env: Env) returns (result: Result<Receipt, string>, ghost walletAsked: Option<WalletRequest>)
      requires stagedRaw.None?
      modifies this
      ensures Outcome(State(), result, walletAsked, None) == Confirm(env, old(State()))
    {
      walletAsked := None;
      if pending.None? {
        return Err("host-nothing-pending"), None;
      }
      var p := pending.value;
      var ok, line := false, Line("host-locked", []);
      if !unlocked {
        stagedRaw := None;
      } else {
        ok, line, walletAsked := ExecutePending(env, p);
        if !ok {
          stagedRaw := None;
        }
      }
      var decision := if ok then Allowed else Denied;
      var receipt := SealReceipt(env, p, decision, true, line);
      if receipt.None? {
        stagedRaw := None;
        return Err("host-device-sign-failed"), walletAsked;
      }
      if decision.Allowed? && p.kind.WalletSignTx? {
        if stagedRaw.Some? {
          held := Some(Held(stagedRaw.value, p.arguments));
          stagedRaw := None;
        }
      } else {
        stagedRaw := None;
      }
      pending := None;
      receipts := receipts + [receipt.value];
      result := Ok(receipt.value);
    }

    method CancelPending(env: Env) returns (result: Result<Receipt, string>)
      modifies this`pending, this`receipts
      ensures Outcome(State(), result, None, None) == Cancel(env, old(State()))
    {
      if pending.None? {
        return Err("host-nothing-pending");
      }
      var receipt := SealReceipt(env, pending.value, Cancelled, false, Line("host-cancelled", []));
      if receipt.None? {
        return Err("host-device-sign-failed");
      }
      pending := None;
      receipts := receipts + [receipt.value];
      result := Ok(receipt.value);
    }

    method Finish(env: Env, decision: Decision, confirmed: bool, outcome: Line, ghost sent: Option<string>)
      returns (result: Result<Receipt, string>)
      requires held.Some?
      modifies this`nextId, this`held, this`receipts
      ensures Outcome(State(), result, None, sent) == FinishBroadcast(env, old(State()), decision, confirmed, outcome, sent)
    {
      var p := Pending(nextId, Broadcast, held.value.arguments, None);
      var receipt := SealReceipt(env, p, decision, confirmed, outcome);
      if receipt.None? {
        return Err("host-device-sign-failed");
      }
      nextId := nextId + 1;
      held := None;
      receipts := receipts + [receipt.value];
      result := Ok(receipt.value);
    }

    method BroadcastHeld(env: Env) returns (result: Result<Receipt, string>, ghost sent: Option<string>)
      modifies this`nextId, this`held, this`receipts
      ensures Outcome(State(), result, None, sent) == SendHeld(env, old(State()))
    {
      sent := None;
      if held.None? {
        return Err("host-nothing-pending"), None;
      }
      if !unlocked {
        result := Finish(env, Denied, true, Line("host-broadcast-locked", []), None);
        return;
      }
      var raw, url := held.value.raw, env.parseEndpoint(endpoint);
      if url.None? {
        result := Finish(env, Denied, true, Line("host-no-rpc", []), None);
        return;
      }
      if !IsSignedRaw(raw) {
        return Err("host-tx-raw"), None;
      }
      sent := Some(raw);
      match env.send(url.value, raw) {
        case Some(hash) => result := Finish(env, Allowed, true, Line("host-broadcast", [hash]), sent);
        case None => result := Finish(env, Denied, true, Line("host-broadcast-failed", []), sent);
      }
    }

    method Decline(env: Env) returns (result: Result<Receipt, string>)
      modifies this`nextId, this`held, this`receipts
      ensures Outcome(State(), result, None, None) == DeclineBroadcast(env, old(State()))
    {
      if held.None? {
        return Err("host-nothing-pending");
      }
      result := Finish(env, Cancelled, false, Line("host-broadcast-held", []), None);
    }
  }

  function NewHost(): Host {
    Host(false, "", 0, 1, None, None, None, [])
  }

  // ---------------------------------------------------------------- runs

  datatype Op =
    | ProposeOp(name: string, arguments: Json)
    | ConfirmOp(env: Env)
    | CancelOp(env: Env)
    | BroadcastOp(env: Env)
    | DeclineOp(env: Env)
    | Unlock(unlocked: bool)
    | SetEndpoint(url: string)
    | SetNow(ms: nat)
    | SetNext(id: nat)

  /** A signing request: the transaction parsed when it was proposed, what the wallet was asked, and
      what it answered. */
  datatype Signing = Signing(proposed: Option<UnsignedTx>, asked: Legacy, answer: Option<string>)

  /** A payload that went out, the number of the signing receipt that was the latest then, and what the
      chain answered. */
  datatype Sent = Sent(receipt: int, payload: string, answer: Option<string>)

  /** What an Allowed broadcast receipt says, and the number of the send it was written for. */
  datatype Claim = Claim(line: Line, send: int)

  /** The host, and a record of the run: the latest proposal, every signing request, for each Allowed
      signing receipt the number of the request behind it, every payload sent, and what is claimed. */
  datatype World = World(
    host: Host,
    proposed: Option<UnsignedTx>,
    signings: seq<Signing>,
    signed: seq<int>,
    sends: seq<Sent>,
    claims: seq<Claim>
  )

  function ProposedTx(name: string, arguments: Json): Option<UnsignedTx> {
    if KindOf(name) == Some(WalletSignTx) && ParseUnsigned(arguments).Ok? then Some(ParseUnsigned(arguments).value)
    else None
  }

  function Perform(w: World, op: Op): World {
    var h := w.host;
    match op
    case ProposeOp(name, arguments) =>
      var o := Propose(h, name, arguments);
      w.(host := o.host, proposed := if o.result.Ok? then ProposedTx(name, arguments) else w.proposed)
    case ConfirmOp(env) =>
      var o := Confirm(env, h);
      var signings := if o.walletAsked.None? || !o.walletAsked.value.SignTx? then w.signings else
        w.signings + [Signing(w.proposed, o.walletAsked.value.tx, env.signLegacy(o.walletAsked.value.tx))];
      w.(host := o.host, signings := signings,
         signed := if o.result.Ok? && IsSigned(o.result.value) then w.signed + [|signings| - 1] else w.signed)
    case CancelOp(env) => w.(host := Cancel(env, h).host)
    case BroadcastOp(env) =>
      var o := SendHeld(env, h);
      var sends := if o.sent.Some? then w.sends + [SentBy(w, env, o.sent.value)] else w.sends;
      w.(host := o.host, sends := sends,
         claims := if o.result.Ok? && ClaimsASend(o.result.value)
                   then w.claims + [Claim(o.result.value.body.outcome, |sends| - 1)] else w.claims)
    case DeclineOp(env) => w.(host := DeclineBroadcast(env, h).host)
    case Unlock(unlocked) => w.(host := h.(unlocked := unlocked))
    case SetEndpoint(url) => w.(host := h.(endpoint := Trim(url)))
    case SetNow(ms) => w.(host := h.(nowMs := ms))
    case SetNext(id) => w.(host := h.(nextId := if id > h.nextId then id else h.nextId))
  }

  function SentBy(w: World, env: Env, payload: string): Sent {
    var url := env.parseEndpoint(w.host.endpoint);
    Sent(|w.signed| - 1, payload, if url.Some? then env.send(url.value, payload) else None)
  }

  predicate ClaimsASend(r: Receipt) {
    r.body.kind.Broadcast? && r.body.decision.Allowed?
  }

  function NewWorld(): World {
    World(NewHost(), None, [], [], [], [])
  }

  function Run(ops: seq<Op>): World {
    if ops == [] then NewWorld() else Perform(Run(ops[..|ops| - 1]), ops[|ops| - 1])
  }

  predicate IsSigned(r: Receipt) {
    r.body.kind.WalletSignTx? && r.body.decision.Allowed?
  }

  function Signed(receipts: seq<Receipt>): nat {
    if receipts == [] then 0 else
      Signed(receipts[..|receipts| - 1]) + if IsSigned(receipts[|receipts| - 1]) then 1 else 0
  }

  function Broadcasts(receipts: seq<Receipt>): nat {
    if receipts == [] then 0 else
      Broadcasts(receipts[..|receipts| - 1]) + if receipts[|receipts| - 1].body.kind.Broadcast? then 1 else 0
  }

  lemma CountOneMore(receipts: seq<Receipt>, r: Receipt)
    ensures Signed(receipts + [r]) == Signed(receipts) + if IsSigned(r) then 1 else 0
    ensures Broadcasts(receipts + [r]) == Broadcasts(receipts) + if r.body.kind.Broadcast? then 1 else 0
  {
    assert (receipts + [r])[..|receipts|] == receipts;
  }

  /** One slot: never a proposal and a held transaction together, nothing staged between calls. */
  ghost predicate OneSlot(h: Host) {
    (h.pending.None? || h.held.None?) && h.stagedRaw.None? &&
    (h.pending.Some? ==> !h.pending.value.kind.Broadcast?)
  }

  /** Sign, hold, send: one held transaction per signature that has no broadcast decision yet. */
  ghost predicate SignHoldSend(w: World) {
    var h := w.host;
    Signed(h.receipts) == Broadcasts(h.receipts) + (if h.held.Some? then 1 else 0) &&
    Signed(h.receipts) == |w.signed|
  }

  /** Payload `raw` is what the wallet answered to the request behind signing receipt `i`. */
  ghost predicate WalletGave(w: World, i: int, raw: string) {
    0 <= i < |w.signed| && 0 <= w.signed[i] < |w.signings| && w.signings[w.signed[i]].answer == Some(raw)
  }

  /** Every signing receipt has a request of its own that the wallet answered; what is held is the
      answer behind the latest one, with the arguments of its proposal. */
  ghost predicate HeldIsSigned(w: World) {
    (forall i :: 0 <= i < |w.signed| ==> 0 <= w.signed[i] < |w.signings| && w.signings[w.signed[i]].answer.Some?) &&
    (forall i, j :: 0 <= i < j < |w.signed| ==> w.signed[i] < w.signed[j]) &&
    (w.host.held.Some? ==> WalletGave(w, |w.signed| - 1, w.host.held.value.raw)) &&
    (w.host.held.Some? ==> IsCanonical(w.host.held.value.arguments, w.signings[w.signed[|w.signed| - 1]].proposed))
  }

  ghost predicate IsCanonical(arguments: Json, tx: Option<UnsignedTx>) {
    tx.Some? && arguments == Canonical(tx.value)
  }

  /** Every payload sent is the wallet's answer behind the receipt that was the latest then. */
  ghost predicate SentIsSigned(w: World) {
    (forall i :: 0 <= i < |w.sends| ==> WalletGave(w, w.sends[i].receipt, w.sends[i].payload)) &&
    (forall i, j :: 0 <= i < j < |w.sends| ==> w.sends[i].receipt <= w.sends[j].receipt)
  }

  /** The wallet was only ever asked for the fields of the transaction that was proposed. */
  ghost predicate AskedIsProposed(w: World) {
    (forall i :: 0 <= i < |w.signings| ==>
      w.signings[i].proposed.Some? && NormalTx(w.signings[i].proposed.value) &&
      w.signings[i].asked == LegacyOf(w.signings[i].proposed.value)) &&
    (w.host.pending.Some? && w.host.pending.value.kind.WalletSignTx? ==>
      w.proposed.Some? && NormalTx(w.proposed.value) && w.host.pending.value.arguments == Canonical(w.proposed.value))
  }

  /** Receipt ids rise; a proposal has the next id after every receipt. */
  ghost predicate IdsRise(h: Host) {
    (forall i, j :: 0 <= i < j < |h.receipts| ==> h.receipts[i].body.id < h.receipts[j].body.id) &&
    (forall i :: 0 <= i < |h.receipts| ==>
      h.receipts[i].body.id < if h.pending.Some? then h.pending.value.id else h.nextId) &&
    (h.pending.Some? ==> h.pending.value.id < h.nextId)
  }

  ghost predicate Sound(w: World) {
    OneSlot(w.host) && SignHoldSend(w) && HeldIsSigned(w) && SentIsSigned(w) && AskedIsProposed(w) && IdsRise(w.host)
  }

  lemma ProposeSound(w: World, name: string, arguments: Json)
    requires Sound(w)
    ensures Sound(Perform(w, ProposeOp(name, arguments)))
  {
    hide Signed, Broadcasts, ParseUnsigned, Canonical, NormalTx, Trim, HexBytes;
    if KindOf(name) == Some(WalletSignTx) && ParseUnsigned(arguments).Ok? {
      AcceptedIsNormal(arguments, ParseUnsigned(arguments).value);
    }
  }

  /** Running the pending tool asks the wallet for the proposed fields, or not at all. */
  lemma ExecuteAsks(w: World, env: Env)
    requires AskedIsProposed(w) && w.host.pending.Some?
    ensures var p := w.host.pending.value;
      var ran := Execute(env, w.host, p);
      if p.kind.WalletSignTx? then
        ran.walletAsked == Some(SignTx(LegacyOf(w.proposed.value))) && ran.raw == env.signLegacy(LegacyOf(w.proposed.value)) &&
        (ran.ok <==> ran.raw.Some?)
      else (ran.walletAsked.Some? ==> ran.walletAsked.value.SignMessage?) && ran.raw == None
  {
    hide ParseUnsigned, Canonical, NormalTx;
    if w.host.pending.value.kind.WalletSignTx? { NormalRoundTrip(w.proposed.value); }
  }

  lemma ConfirmLedger(w: World, env: Env)
    requires OneSlot(w.host) && SignHoldSend(w) && IdsRise(w.host) && AskedIsProposed(w)
    ensures var v := Perform(w, ConfirmOp(env));
      OneSlot(v.host) && SignHoldSend(v) && IdsRise(v.host)
  {
    hide Signed, Broadcasts, Execute, Canonical, NormalTx, LegacyOf;
    if w.host.pending.Some? {
      ExecuteAsks(w, env);
      var o := Confirm(env, w.host);
      if o.result.Ok? { CountOneMore(w.host.receipts, o.result.value); }
    }
  }

  /** The signing request of a confirm. */
  function Request(w: World, env: Env): Signing
    requires w.proposed.Some?
  {
    Signing(w.proposed, LegacyOf(w.proposed.value), env.signLegacy(LegacyOf(w.proposed.value)))
  }

  /** What a confirm adds to the record: a request, and a receipt for it once it is answered and sealed. */
  lemma ConfirmRecords(w: World, env: Env)
    requires AskedIsProposed(w)
    ensures var v := Perform(w, ConfirmOp(env));
      v.sends == w.sends && v.proposed == w.proposed && v.host.pending in {None, w.host.pending} &&
      if w.host.unlocked && w.host.pending.Some? && w.host.pending.value.kind.WalletSignTx? then
        var s := Request(w, env);
        v.signings == w.signings + [s] &&
        ((v.signed == w.signed && v.host.held == w.host.held) ||
         (v.signed == w.signed + [|w.signings|] && s.answer.Some? &&
          v.host.held == Some(Held(s.answer.value, Canonical(w.proposed.value)))))
      else v.signings == w.signings && v.signed == w.signed && v.host.held == w.host.held
  {
    hide Execute, Canonical, NormalTx, LegacyOf;
    if w.host.pending.Some? { ExecuteAsks(w, env); }
  }

  /** What the wallet gave stays given as the record grows. */
  lemma StillGiven(w: World, v: World, i: int, raw: string)
    requires w.signings <= v.signings && w.signed <= v.signed && WalletGave(w, i, raw)
    ensures WalletGave(v, i, raw)
  {}

  lemma StillSigned(w: World, v: World)
    requires w.signings <= v.signings && w.signed <= v.signed && v.sends == w.sends && SentIsSigned(w)
    ensures SentIsSigned(v)
  {
    hide WalletGave;
    forall i | 0 <= i < |v.sends| ensures WalletGave(v, v.sends[i].receipt, v.sends[i].payload) {
      StillGiven(w, v, v.sends[i].receipt, v.sends[i].payload);
    }
  }

  lemma ConfirmWallet(w: World, env: Env)
    requires HeldIsSigned(w) && SentIsSigned(w) && AskedIsProposed(w)
    ensures var v := Perform(w, ConfirmOp(env));
      HeldIsSigned(v) && SentIsSigned(v) && AskedIsProposed(v)
  {
    hide Perform, Canonical, NormalTx, LegacyOf, SentIsSigned;
    ConfirmRecords(w, env);
    StillSigned(w, Perform(w, ConfirmOp(env)));
  }

  lemma ConfirmSound(w: World, env: Env)
    requires Sound(w)
    ensures Sound(Perform(w, ConfirmOp(env)))
  {
    hide OneSlot, SignHoldSend, IdsRise, HeldIsSigned, SentIsSigned, AskedIsProposed, Confirm, IsSigned;
    ConfirmLedger(w, env);
    ConfirmWallet(w, env);
  }

  lemma CancelSound(w: World, env: Env)
    requires Sound(w)
    ensures Sound(Perform(w, CancelOp(env)))
  {
    hide Signed, Broadcasts, ParseUnsigned, Canonical, NormalTx, Trim, HexBytes;
    var c := Cancel(env, w.host).result;
    if c.Ok? { CountOneMore(w.host.receipts, c.value); }
  }

  lemma FinishSound(w: World, env: Env, decision: Decision, confirmed: bool, outcome: Line, sent: Option<string>)
    requires Sound(w) && w.host.held.Some?
    ensures Sound(w.(host := FinishBroadcast(env, w.host, decision, confirmed, outcome, sent).host))
  {
    hide Signed, Broadcasts, ParseUnsigned, Canonical, NormalTx, Trim, HexBytes;
    var o := FinishBroadcast(env, w.host, decision, confirmed, outcome, sent);
    if o.result.Ok? { CountOneMore(w.host.receipts, o.result.value); }
  }

  lemma RecordSendSound(w: World, env: Env)
    requires Sound(w) && w.host.held.Some?
    ensures Sound(w.(sends := w.sends + [SentBy(w, env, w.host.held.value.raw)]))
  {
    hide Signed, Broadcasts, NormalTx, OneSlot, IdsRise, IsCanonical;
  }

  lemma ClaimsDoNotCount(w: World, claims: seq<Claim>)
    requires Sound(w)
    ensures Sound(w.(claims := claims))
  {
    hide Signed, Broadcasts, NormalTx, OneSlot, IdsRise;
  }

  lemma SendSound(w: World, env: Env)
    requires Sound(w)
    ensures Sound(Perform(w, DeclineOp(env))) && Sound(Perform(w, BroadcastOp(env)))
  {
    hide Sound, IsSignedRaw, FinishBroadcast, SentBy;
    var h := w.host;
    var claims := Perform(w, BroadcastOp(env)).claims;
    ClaimsDoNotCount(w, claims);
    if h.held.Some? {
      var raw := h.held.value.raw;
      RecordSendSound(w, env);
      ClaimsDoNotCount(w.(sends := w.sends + [SentBy(w, env, raw)]), claims);
      FinishSound(w, env, Cancelled, false, Line("host-broadcast-held", []), None);
      var w1 := w.(claims := claims);
      FinishSound(w1, env, Denied, true, Line("host-broadcast-locked", []), None);
      FinishSound(w1, env, Denied, true, Line("host-no-rpc", []), None);
      var w2 := w.(sends := w.sends + [SentBy(w, env, raw)], claims := claims);
      var url := env.parseEndpoint(h.endpoint);
      if url.Some? {
        FinishSound(w2, env, Denied, true, Line("host-broadcast-failed", []), Some(raw));
        var hash := env.send(url.value, raw);
        if hash.Some? { FinishSound(w2, env, Allowed, true, Line("host-broadcast", [hash.value]), Some(raw)); }
      }
    }
  }

  predicate SameLedger(h: Host, after: Host) {
    after.pending == h.pending && after.held == h.held && after.nextId == h.nextId && after.receipts == h.receipts
  }

  /** The settings do not touch the ledger. */
  lemma SettingSound(w: World, h: Host)
    requires Sound(w) && SameLedger(w.host.(nextId := h.nextId), h) && h.stagedRaw.None? && h.nextId >= w.host.nextId
    ensures Sound(w.(host := h))
  {
    hide Signed, Broadcasts, Canonical, NormalTx;
  }

  lemma NothingStaged(w: World)
    requires Sound(w)
    ensures w.host.stagedRaw.None?
  {}

  lemma PerformSound(w: World, op: Op)
    requires Sound(w)
    ensures Sound(Perform(w, op))
  {
    hide Sound, Propose, Confirm, Cancel, SendHeld, DeclineBroadcast, Trim;
    NothingStaged(w);
    match op {
      case ProposeOp(name, arguments) => ProposeSound(w, name, arguments);
      case ConfirmOp(env) => ConfirmSound(w, env);
      case CancelOp(env) => CancelSound(w, env);
      case DeclineOp(env) => SendSound(w, env);
      case BroadcastOp(env) => SendSound(w, env);
      case _ => SettingSound(w, Perform(w, op).host);
    }
  }

  // ---------------------------------------------------------------- no receipt claims what did not happen

  function Claims(receipts: seq<Receipt>): nat {
    if receipts == [] then 0 else
      Claims(receipts[..|receipts| - 1]) + if ClaimsASend(receipts[|receipts| - 1]) then 1 else 0
  }

  lemma OneMoreClaim(receipts: seq<Receipt>, r: Receipt)
    ensures Claims(receipts + [r]) == Claims(receipts) + if ClaimsASend(r) then 1 else 0
  {
    assert (receipts + [r])[..|receipts|] == receipts;
  }

  /** The claim was written for a send that the chain took, and carries the chain's answer. */
  ghost predicate IsTrue(c: Claim, sends: seq<Sent>) {
    0 <= c.send < |sends| && sends[c.send].answer.Some? &&
    c.line == Line("host-broadcast", [sends[c.send].answer.value])
  }

  /** Every Allowed broadcast receipt has a send of its own. */
  ghost predicate Claimed(w: World) {
    Claims(w.host.receipts) == |w.claims| &&
    (forall i :: 0 <= i < |w.claims| ==> IsTrue(w.claims[i], w.sends)) &&
    (forall i, j :: 0 <= i < j < |w.claims| ==> w.claims[i].send < w.claims[j].send)
  }

  /** A broadcast that answers a receipt which claims a send has sent the held payload just now. */
  lemma ClaimIsSent(w: World, env: Env)
    ensures var o := SendHeld(env, w.host);
      (o.host.receipts == w.host.receipts || (o.result.Ok? && o.host.receipts == w.host.receipts + [o.result.value])) &&
      (o.result.Ok? ==> o.host.receipts == w.host.receipts + [o.result.value]) &&
      (o.result.Ok? && ClaimsASend(o.result.value) ==>
        o.sent.Some? && SentBy(w, env, o.sent.value).answer.Some? &&
        o.result.value.body.outcome == Line("host-broadcast", [SentBy(w, env, o.sent.value).answer.value]))
  {
    hide IsSignedRaw;
  }

  /** No other operation writes such a receipt. */
  lemma NothingClaimed(w: World, op: Op)
    requires OneSlot(w.host) && !op.BroadcastOp?
    ensures var v := Perform(w, op);
      Claims(v.host.receipts) == Claims(w.host.receipts) && v.claims == w.claims && v.sends == w.sends
  {
    hide Claims, ParseUnsigned, Trim, Prepare, Execute;
    match op {
      case ConfirmOp(env) =>
        var o := Confirm(env, w.host);
        if o.result.Ok? { OneMoreClaim(w.host.receipts, o.result.value); }
      case CancelOp(env) =>
        var o := Cancel(env, w.host);
        if o.result.Ok? { OneMoreClaim(w.host.receipts, o.result.value); }
      case DeclineOp(env) =>
        var o := DeclineBroadcast(env, w.host);
        if o.result.Ok? { OneMoreClaim(w.host.receipts, o.result.value); }
      case _ =>
    }
  }

  lemma ClaimStep(w: World, op: Op)
    requires OneSlot(w.host) && Claimed(w)
    ensures Claimed(Perform(w, op))
  {
    hide Claims, SendHeld, SentBy, ClaimsASend, OneSlot;
    if op.BroadcastOp? {
      var o := SendHeld(op.env, w.host);
      ClaimIsSent(w, op.env);
      if o.result.Ok? { OneMoreClaim(w.host.receipts, o.result.value); }
    } else {
      hide Perform;
      NothingClaimed(w, op);
    }
  }

  /** All of it holds after any run. */
  lemma {:induction false} RunIsSound(ops: seq<Op>)
    ensures Sound(Run(ops)) && Claimed(Run(ops))
  {
    if ops != [] {
      var before := Run(ops[..|ops| - 1]);
      RunIsSound(ops[..|ops| - 1]);
      assert OneSlot(before.host);
      hide Sound, Claimed, Perform, OneSlot;
      PerformSound(before, ops[|ops| - 1]);
      ClaimStep(before, ops[|ops| - 1]);
    }
  }

  // ---------------------------------------------------------------- gapless ids

  /** Ids are 1, 2, 3 and so on, and only a waiting proposal is missing from the receipts. */
  ghost predicate Gapless(h: Host) {
    |h.receipts| + (if h.pending.Some? then 1 else 0) == h.nextId - 1 &&
    (forall i :: 0 <= i < |h.receipts| ==> h.receipts[i].body.id == i + 1) &&
    (h.pending.Some? ==> h.pending.value.id == h.nextId - 1)
  }

  lemma {:induction false} LedgerIsGapless(ops: seq<Op>)
    requires forall i :: 0 <= i < |ops| ==> !ops[i].SetNext?
    ensures Gapless(Run(ops).host)
  {
    if ops != [] {
      var before := Run(ops[..|ops| - 1]);
      LedgerIsGapless(ops[..|ops| - 1]);
      RunIsSound(ops[..|ops| - 1]);
      hide Run, ParseUnsigned, Trim, Prepare, SignHoldSend, HeldIsSigned, SentIsSigned, AskedIsProposed, IdsRise;
      GaplessStep(before, ops[|ops| - 1]);
    }
    RunStep(ops);
  }

  lemma RunStep(ops: seq<Op>)
    ensures Run(ops) == if ops == [] then NewWorld() else Perform(Run(ops[..|ops| - 1]), ops[|ops| - 1])
  {}

  lemma GaplessStep(w: World, op: Op)
    requires Gapless(w.host) && OneSlot(w.host) && !op.SetNext?
    ensures Gapless(Perform(w, op).host)
  {
    hide ParseUnsigned, Trim, Prepare;
  }

  // ---------------------------------------------------------------- what was sent was proposed

  /** From proposal to payload, over every run: what goes out is what the wallet answered when it was
      asked for the seven fields of a transaction that was proposed, at the latest signing receipt. */
  lemma SentWasProposed(ops: seq<Op>, i: nat)
    requires i < |Run(ops).sends|
    ensures var w := Run(ops);
      var sent := w.sends[i];
      0 <= sent.receipt < |w.signed| && 0 <= w.signed[sent.receipt] < |w.signings| &&
      var s := w.signings[w.signed[sent.receipt]];
      s.answer == Some(sent.payload) && s.proposed.Some? && NormalTx(s.proposed.value) &&
      s.asked == LegacyOf(s.proposed.value)
  {
    hide NormalTx, Signed, Broadcasts, Run;
    RunIsSound(ops);
    var w := Run(ops);
    assert WalletGave(w, w.sends[i].receipt, w.sends[i].payload);
  }

  /** Two environments that may differ only in what the wallet signs. */
  ghost predicate OnlyWalletDiffers(env: Env, other: Env) {
    other == env.(signLegacy := other.signLegacy)
  }

  /** A confirm consults the wallet for the proposed transaction and for nothing else: answers to any
      other request cannot be seen. */
  lemma WalletSeesOnlyTheProposed(w: World, env: Env, other: Env)
    requires Sound(w) && OnlyWalletDiffers(env, other)
    requires w.proposed.Some? ==> env.signLegacy(LegacyOf(w.proposed.value)) == other.signLegacy(LegacyOf(w.proposed.value))
    ensures Confirm(env, w.host) == Confirm(other, w.host)
  {
    hide ParseUnsigned, Canonical, NormalTx, Signed, Broadcasts;
    if w.host.pending.Some? && w.host.pending.value.kind.WalletSignTx? {
      NormalRoundTrip(w.proposed.value);
    }
  }

  /** A broadcast hands the chain the held payload and nothing else. */
  lemma ChainSeesOnlyTheHeld(h: Host, env: Env, other: Env)
    requires other == env.(send := other.send)
    requires h.held.Some? ==> forall url :: env.send(url, h.held.value.raw) == other.send(url, h.held.value.raw)
    ensures SendHeld(env, h) == SendHeld(other, h)
  {
    hide IsSignedRaw;
  }

  /** While the host is locked nobody is asked and nothing goes out, and no receipt says Allowed. */
  lemma LockedAsksNobody(h: Host, env: Env)
    requires !h.unlocked
    ensures var c, b := Confirm(env, h), SendHeld(env, h);
      c.walletAsked == None && b.sent == None &&
      (c.result.Ok? ==> c.result.value.body.decision == Denied) && (b.result.Ok? ==> b.result.value.body.decision == Denied)
  {
    hide Execute;
  }

  // ---------------------------------------------------------------- what is proposed

  function TextOf(arguments: Json, key: string): string {
    if arguments.Object? && key in arguments.fields && arguments.fields[key].Str? then Trim(arguments.fields[key].s) else ""
  }

  /** A message to sign: some text, spaces aside, of at most 4096 bytes. */
  predicate IsMessage(m: string) {
    m != "" && Utf8Len(m) <= 4096
  }

  /** The hash of a transaction: `0x` and 64 digits. */
  predicate IsHash(s: string) {
    "0x" <= s && |s| == 66 && IsHex(s[2..])
  }

  /** What a proposal under this name stands for: the tool, the arguments that are kept, and the text
      that the tool will be given. */
  ghost predicate Stands(name: string, arguments: Json, kind: ToolKind, kept: Json, text: Option<string>) {
    match kind
    case DeviceDid => name == "device_did" && kept == Object(map[]) && text == None
    case WalletAddress => name == "wallet_address" && kept == Object(map[]) && text == None
    case ChainBalance => name == "chain_balance" && kept == Object(map[]) && text == None
    case ChainNonce => name == "chain_nonce" && kept == Object(map[]) && text == None
    case ChainTx =>
      name == "chain_tx" && IsHash(TextOf(arguments, "hash")) && text == Some(TextOf(arguments, "hash")) &&
      kept == Object(map["hash" := Str(TextOf(arguments, "hash"))])
    case WalletSign =>
      name == "wallet_sign" && IsMessage(TextOf(arguments, "message")) && text == Some(TextOf(arguments, "message")) &&
      kept == Object(map["message" := Str(TextOf(arguments, "message"))])
    case WalletSignTx =>
      name == "wallet_sign_tx" && exists tx :: Denotes(arguments, tx) && kept == Canonical(tx) && text == Some(tx.toHex)
    case Broadcast => false
  }

  ghost predicate StandsForSome(name: string, arguments: Json) {
    exists kind, kept, text :: Stands(name, arguments, kind, kept, text)
  }

  lemma HashIs(s: string)
    ensures IsTxHash(s) <==> IsHash(s)
  {
    hide IsHex, HexBytes;
    if "0x" <= s {
      assert s[..2] == "0x";
      HexBytesIff(s[2..]);
    }
  }

  /** Preparing is accepted exactly for what stands for something, and as that. */
  lemma PreparedIff(name: string, arguments: Json, kind: ToolKind, kept: Json, text: Option<string>)
    ensures KindOf(name) == Some(kind) && Prepare(kind, arguments) == Ok((kept, text)) <==>
      Stands(name, arguments, kind, kept, text)
  {
    hide Trim, HexBytes, IsHex, ParseUnsigned, Canonical, Denotes, Utf8Len, IsTxHash, IsHash;
    NoText();
    HashIs(TextOf(arguments, "hash"));
    HashIs("");
    if kind.WalletSignTx? { TxPrepared(arguments, kept, text); }
  }

  lemma NoText()
    ensures Trim("") == "" && Utf8Len("") == 0
  {}

  lemma TxPrepared(arguments: Json, kept: Json, text: Option<string>)
    ensures Prepare(WalletSignTx, arguments) == Ok((kept, text)) <==>
      exists tx :: Denotes(arguments, tx) && kept == Canonical(tx) && text == Some(tx.toHex)
  {
    hide ParseUnsigned, Canonical, Denotes;
    if ParseUnsigned(arguments).Ok? { ParsedIff(arguments, ParseUnsigned(arguments).value); }
    forall tx | Denotes(arguments, tx) ensures ParseUnsigned(arguments) == Ok(tx) { ParsedIff(arguments, tx); }
  }

  /** A proposal is accepted exactly when the slot is free and it stands for something; then that waits
      under the next id. */
  lemma ProposedIff(h: Host, name: string, arguments: Json)
    ensures var o := Propose(h, name, arguments);
      (o.result.Ok? <==> h.pending == None && h.held == None && StandsForSome(name, arguments)) &&
      (o.result.Ok? ==> o.host == h.(nextId := h.nextId + 1, pending := Some(o.result.value)) && o.result.value.id == h.nextId) &&
      (o.result.Ok? ==> Stands(name, arguments, o.result.value.kind, o.result.value.arguments, o.result.value.message)) &&
      (o.result.Err? ==> o.host == h)
  {
    hide Stands, Prepare, KindOf;
    forall kind, kept, text ensures KindOf(name) == Some(kind) && Prepare(kind, arguments) == Ok((kept, text)) <==>
      Stands(name, arguments, kind, kept, text)
    {
      PreparedIff(name, arguments, kind, kept, text);
    }
  }

  /** What is wrong with a proposal, in the order it is looked at. */
  ghost predicate RefusesFor(h: Host, name: string, arguments: Json, key: string) {
    if h.pending.Some? || h.held.Some? then key == "host-pending"
    else if name == "wallet_sign" then
      if TextOf(arguments, "message") == "" then key == "host-missing-message" else key == "host-message-long"
    else if name == "chain_tx" then key == "host-bad-hash"
    else if name == "wallet_sign_tx" then
      key == if arguments.Object? && !(arguments.fields.Keys <= {"chain_id", "data", "gas_limit", "gas_price", "nonce", "to", "value"})
             then "host-tx-raw" else "host-tx-fields"
    else key == "host-unknown-tool"
  }

  lemma WhyRefused(h: Host, name: string, arguments: Json)
    ensures var r := Propose(h, name, arguments).result;
      r.Err? ==> RefusesFor(h, name, arguments, r.error)
  {
    hide ParseUnsigned, Trim, Utf8Len, IsTxHash, Canonical;
    NoText();
    RefusedFor(arguments);
  }

  // ---------------------------------------------------------------- every receipt is true

  datatype Proposal = Proposal(name: string, arguments: Json)

  /** A message the wallet was asked to sign, and the proposal behind it. */
  datatype Asking = Asking(proposal: Option<Proposal>, message: string, answer: Option<string>, unlocked: bool)

  /** What a receipt was written for: the operation, the host before it, and the latest proposal. */
  datatype Writing = Writing(op: Op, host: Host, proposal: Option<Proposal>)

  /** A second record of a run, kept from what goes in and comes out. */
  datatype Diary = Diary(proposal: Option<Proposal>, messages: seq<Asking>, writings: seq<Writing>)

  function Note(d: Diary, h: Host, op: Op): Diary {
    var written := d.(writings := d.writings + [Writing(op, h, d.proposal)]);
    match op
    case ProposeOp(name, arguments) =>
      if Propose(h, name, arguments).result.Ok? then d.(proposal := Some(Proposal(name, arguments))) else d
    case ConfirmOp(env) =>
      var o := Confirm(env, h);
      var asked := o.walletAsked.Some? && o.walletAsked.value.SignMessage?;
      (if o.result.Ok? then written else d).(messages :=
        if asked then d.messages + [Asking(d.proposal, o.walletAsked.value.message, env.signPersonal(o.walletAsked.value.message), h.unlocked)]
        else d.messages)
    case CancelOp(env) => if Cancel(env, h).result.Ok? then written else d
    case BroadcastOp(env) => if SendHeld(env, h).result.Ok? then written else d
    case DeclineOp(env) => if DeclineBroadcast(env, h).result.Ok? then written else d
    case _ => d
  }

  function Kept(ops: seq<Op>): Diary {
    if ops == [] then Diary(None, [], []) else
      Note(Kept(ops[..|ops| - 1]), Run(ops[..|ops| - 1]).host, ops[|ops| - 1])
  }

  /** A chain read with all its steps. */
  ghost predicate ReadSays(env: Env, endpoint: string, kind: ToolKind, text: string, fact: Option<string>) {
    exists url, body, response :: env.parseEndpoint(endpoint) == Some(url) && env.request(kind, text) == Some(body) &&
      env.transport(url, body) == Some(response) && env.interpret(kind, response) == Some(fact)
  }

  /** What an Allowed receipt of a confirm says is what the tool gave for what was proposed. */
  ghost predicate RanAs(env: Env, h: Host, p: Proposal, kind: ToolKind, line: Line) {
    match kind
    case DeviceDid => line == Line("host-did", [env.did])
    case WalletAddress => line == Line("host-address", [env.address])
    case WalletSign =>
      var signature := env.signPersonal(TextOf(p.arguments, "message"));
      signature.Some? && line == Line("host-signed", [signature.value, env.address])
    case WalletSignTx =>
      exists tx :: Denotes(p.arguments, tx) && env.signLegacy(LegacyOf(tx)).Some? &&
        line == Line("host-tx-signed", [tx.toHex, tx.valueDec])
    case ChainBalance =>
      exists fact :: ReadSays(env, h.endpoint, kind, "", fact) && line == Line("host-balance", [if fact.Some? then fact.value else "0"])
    case ChainNonce =>
      exists fact :: ReadSays(env, h.endpoint, kind, "", fact) && line == Line("host-nonce", [if fact.Some? then fact.value else "0"])
    case ChainTx =>
      exists fact :: ReadSays(env, h.endpoint, kind, TextOf(p.arguments, "hash"), fact) &&
        line == Line("host-tx", [if fact == Some("ok") then "chain-tx-ok" else if fact == Some("fail") then "chain-tx-fail" else "chain-tx-pending"])
    case Broadcast => false
  }

  /** Why a confirm was denied. */
  ghost predicate FailedAs(env: Env, h: Host, p: Proposal, kind: ToolKind, line: Line) {
    if !h.unlocked then line == Line("host-locked", []) else
    match kind
    case WalletSign => env.signPersonal(TextOf(p.arguments, "message")).None? && line == Line("host-wallet-failed", [])
    case WalletSignTx =>
      line == Line("host-wallet-failed", []) && exists tx :: Denotes(p.arguments, tx) && env.signLegacy(LegacyOf(tx)).None?
    case DeviceDid => false
    case WalletAddress => false
    case Broadcast => false
    case _ =>
      var text := if kind.ChainTx? then TextOf(p.arguments, "hash") else "";
      if env.parseEndpoint(h.endpoint).None? then line == Line("host-no-rpc", [])
      else if env.request(kind, text).None? then line == Line("host-bad-hash", [])
      else line == Line("host-rpc-failed", []) && forall fact :: !ReadSays(env, h.endpoint, kind, text, fact)
  }

  predicate IsL2(kind: ToolKind) {
    kind in {WalletSign, WalletSignTx, Broadcast}
  }

  /** The receipt of a decision on a proposal: sealed by the device key over what it says, for the tool
      and the arguments that were proposed. */
  ghost predicate Sealed(env: Env, r: Receipt, w: Writing) {
    env.deviceSign(r.body) == Some(r.signature) && r.body.recordedAtMs == w.host.nowMs && r.body.actor == env.did &&
    r.body.tier == if IsL2(r.body.kind) then L2 else L0
  }

  ghost predicate OfProposal(r: Receipt, w: Writing) {
    w.proposal.Some? && exists text :: Stands(w.proposal.value.name, w.proposal.value.arguments, r.body.kind, r.body.arguments, text)
  }

  ghost predicate OfHeld(r: Receipt, w: Writing) {
    r.body.kind == Broadcast && w.host.held.Some? && r.body.arguments == w.host.held.value.arguments && r.body.id == w.host.nextId
  }

  ghost predicate IsTrueReceipt(r: Receipt, w: Writing) {
    match w.op
    case ConfirmOp(env) =>
      Sealed(env, r, w) && OfProposal(r, w) && r.body.confirmed &&
      if r.body.decision == Allowed then w.host.unlocked && RanAs(env, w.host, w.proposal.value, r.body.kind, r.body.outcome)
      else r.body.decision == Denied && FailedAs(env, w.host, w.proposal.value, r.body.kind, r.body.outcome)
    case CancelOp(env) =>
      Sealed(env, r, w) && OfProposal(r, w) && !r.body.confirmed && r.body.decision == Cancelled &&
      r.body.outcome == Line("host-cancelled", [])
    case BroadcastOp(env) =>
      Sealed(env, r, w) && OfHeld(r, w) && r.body.confirmed && (r.body.decision, r.body.outcome) == Verdict(env, w.host)
    case DeclineOp(env) =>
      Sealed(env, r, w) && OfHeld(r, w) && !r.body.confirmed && r.body.decision == Cancelled &&
      r.body.outcome == Line("host-broadcast-held", [])
    case _ => false
  }

  ghost predicate IsOf(p: Pending, pr: Proposal) {
    Stands(pr.name, pr.arguments, p.kind, p.arguments, p.message)
  }

  /** What waits is what was proposed latest. */
  ghost predicate PendingStands(h: Host, d: Diary) {
    h.pending.Some? ==> d.proposal.Some? && IsOf(h.pending.value, d.proposal.value)
  }

  /** The wallet signs only messages that were proposed, each in an unlocked confirm. */
  ghost predicate MessagesWereProposed(d: Diary) {
    forall i :: 0 <= i < |d.messages| ==>
      d.messages[i].unlocked && d.messages[i].proposal.Some? &&
      d.messages[i].proposal.value.name == "wallet_sign" &&
      d.messages[i].message == TextOf(d.messages[i].proposal.value.arguments, "message") && IsMessage(d.messages[i].message)
  }

  ghost predicate ReceiptsAreTrue(h: Host, d: Diary) {
    |d.writings| == |h.receipts| && forall i :: 0 <= i < |h.receipts| ==> IsTrueReceipt(h.receipts[i], d.writings[i])
  }

  ghost predicate True(h: Host, d: Diary) {
    PendingStands(h, d) && MessagesWereProposed(d) && ReceiptsAreTrue(h, d)
  }

  lemma ChainRan(env: Env, h: Host, p: Pending)
    requires p.kind.ChainBalance? || p.kind.ChainNonce? || p.kind.ChainTx?
    ensures var ran, text := Execute(env, h, p), if p.message.Some? then p.message.value else "";
      ran.walletAsked == None &&
      (ran.ok ==> exists fact :: ReadSays(env, h.endpoint, p.kind, text, fact) && ran.line == FactLine(p.kind, fact)) &&
      (!ran.ok ==>
        if env.parseEndpoint(h.endpoint).None? then ran.line == Line("host-no-rpc", [])
        else if env.request(p.kind, text).None? then ran.line == Line("host-bad-hash", [])
        else ran.line == Line("host-rpc-failed", []) && forall fact :: !ReadSays(env, h.endpoint, p.kind, text, fact))
  {
    var ran, text := Execute(env, h, p), if p.message.Some? then p.message.value else "";
    if ran.ok {
      var url, body := env.parseEndpoint(h.endpoint).value, env.request(p.kind, text).value;
      var response := env.transport(url, body).value;
      assert ReadSays(env, h.endpoint, p.kind, text, env.interpret(p.kind, response).value);
    }
  }

  /** Running the tool of a proposal. */
  lemma ExecuteIsTrue(env: Env, h: Host, p: Pending, pr: Proposal)
    requires h.unlocked && Stands(pr.name, pr.arguments, p.kind, p.arguments, p.message)
    ensures var ran := Execute(env, h, p);
      (ran.ok ==> RanAs(env, h, pr, p.kind, ran.line)) && (!ran.ok ==> FailedAs(env, h, pr, p.kind, ran.line)) &&
      (ran.walletAsked.Some? && ran.walletAsked.value.SignMessage? ==>
        pr.name == "wallet_sign" && ran.walletAsked.value.message == TextOf(pr.arguments, "message") &&
        IsMessage(TextOf(pr.arguments, "message")))
  {
    hide ParseUnsigned, Canonical, Denotes, ReadSays, TextOf, IsMessage, IsHash, NormalTx;
    if p.kind.WalletSignTx? {
      var tx :| Denotes(pr.arguments, tx) && p.arguments == Canonical(tx) && p.message == Some(tx.toHex);
      ParsedIff(pr.arguments, tx);
      ProposedIsStored(pr.arguments, tx);
    } else if p.kind.ChainBalance? || p.kind.ChainNonce? || p.kind.ChainTx? {
      ChainRan(env, h, p);
    }
  }

  lemma WriteOne(h: Host, d: Diary, r: Receipt, w: Writing)
    requires ReceiptsAreTrue(h, d) && IsTrueReceipt(r, w)
    ensures ReceiptsAreTrue(h.(receipts := h.receipts + [r]), d.(writings := d.writings + [w]))
  {
    hide IsTrueReceipt;
  }

  /** Receipts stay true whatever else the host and the diary hold. */
  lemma SameReceipts(h: Host, d: Diary, h': Host, d': Diary)
    requires ReceiptsAreTrue(h, d) && h'.receipts == h.receipts && d'.writings == d.writings
    ensures ReceiptsAreTrue(h', d')
  {
    hide IsTrueReceipt;
  }

  lemma ConfirmIsTrue(w: World, d: Diary, env: Env)
    requires Sound(w) && True(w.host, d)
    ensures True(Perform(w, ConfirmOp(env)).host, Note(d, w.host, ConfirmOp(env)))
  {
    hide Execute, RanAs, FailedAs, Stands, Sound, IsMessage, TextOf, ReceiptsAreTrue;
    var h, o := w.host, Confirm(env, w.host);
    var d' := Note(d, h, ConfirmOp(env));
    if h.pending.Some? {
      var p := h.pending.value;
      if h.unlocked { ExecuteIsTrue(env, h, p, d.proposal.value); }
      FailedLocked(env, h, d.proposal.value, p.kind);
      if o.result.Ok? {
        TierIs(p.kind);
        WriteOne(h, d, o.result.value, Writing(ConfirmOp(env), h, d.proposal));
        SameReceipts(h.(receipts := h.receipts + [o.result.value]), d.(writings := d.writings + [Writing(ConfirmOp(env), h, d.proposal)]), o.host, d');
      } else {
        SameReceipts(h, d, o.host, d');
      }
    }
  }

  lemma FailedLocked(env: Env, h: Host, p: Proposal, kind: ToolKind)
    ensures !h.unlocked ==> FailedAs(env, h, p, kind, Line("host-locked", []))
  {}

  lemma TierIs(kind: ToolKind)
    ensures TierOf(kind) == if IsL2(kind) then L2 else L0
  {}

  lemma CancelIsTrue(h: Host, d: Diary, env: Env)
    requires True(h, d)
    ensures True(Cancel(env, h).host, Note(d, h, CancelOp(env)))
  {
    hide Stands, ReceiptsAreTrue;
    var o := Cancel(env, h);
    if o.result.Ok? {
      TierIs(h.pending.value.kind);
      WriteOne(h, d, o.result.value, Writing(CancelOp(env), h, d.proposal));
      SameReceipts(h.(receipts := h.receipts + [o.result.value]), d.(writings := d.writings + [Writing(CancelOp(env), h, d.proposal)]),
                   o.host, Note(d, h, CancelOp(env)));
    }
  }

  /** A decision on the held transaction answers an error and changes no receipt, or writes a true one. */
  ghost predicate WritesTruth(h: Host, o: Outcome<Receipt>, w: Writing) {
    o.host.pending == h.pending &&
    (o.result.Ok? ==> o.host.receipts == h.receipts + [o.result.value] && IsTrueReceipt(o.result.value, w)) &&
    (o.result.Err? ==> o.host.receipts == h.receipts)
  }

  lemma FinishIsTrue(h: Host, env: Env, proposal: Option<Proposal>)
    ensures WritesTruth(h, SendHeld(env, h), Writing(BroadcastOp(env), h, proposal))
    ensures WritesTruth(h, DeclineBroadcast(env, h), Writing(DeclineOp(env), h, proposal))
  {
    hide IsSignedRaw, WritesTruth, FinishBroadcast;
    if h.held.Some? {
      FinishedTruth(h, env, Cancelled, false, Line("host-broadcast-held", []), None, Writing(DeclineOp(env), h, proposal));
      var (decision, line) := Verdict(env, h);
      FinishedTruth(h, env, decision, true, line, SendHeld(env, h).sent, Writing(BroadcastOp(env), h, proposal));
    }
    assert forall key: string, w :: WritesTruth(h, Refuse(h, key), w) by { RefusalIsTrue(h); }
  }

  lemma RefusalIsTrue(h: Host)
    ensures forall key: string, w :: WritesTruth(h, Refuse(h, key), w)
  {
    hide IsTrueReceipt;
  }

  lemma FinishedTruth(
    h: Host, env: Env, decision: Decision, confirmed: bool, line: Line, sent: Option<string>, w: Writing)
    requires h.held.Some? && w.host == h
    requires (w.op == BroadcastOp(env) && confirmed && (decision, line) == Verdict(env, h)) ||
      (w.op == DeclineOp(env) && !confirmed && decision == Cancelled && line == Line("host-broadcast-held", []))
    ensures WritesTruth(h, FinishBroadcast(env, h, decision, confirmed, line, sent), w)
  {
    hide Verdict;
    TierIs(Broadcast);
  }

  lemma DecisionIsTrue(h: Host, d: Diary, op: Op)
    requires True(h, d) && (op.BroadcastOp? || op.DeclineOp?)
    ensures True((if op.BroadcastOp? then SendHeld(op.env, h) else DeclineBroadcast(op.env, h)).host, Note(d, h, op))
  {
    hide Stands, ReceiptsAreTrue, SendHeld, DeclineBroadcast, IsTrueReceipt;
    var o := if op.BroadcastOp? then SendHeld(op.env, h) else DeclineBroadcast(op.env, h);
    FinishIsTrue(h, op.env, d.proposal);
    if o.result.Ok? {
      WriteOne(h, d, o.result.value, Writing(op, h, d.proposal));
      SameReceipts(h.(receipts := h.receipts + [o.result.value]), d.(writings := d.writings + [Writing(op, h, d.proposal)]), o.host, Note(d, h, op));
    } else {
      SameReceipts(h, d, o.host, Note(d, h, op));
    }
  }

  lemma ProposeIsTrue(h: Host, d: Diary, name: string, arguments: Json)
    requires True(h, d)
    ensures True(Propose(h, name, arguments).host, Note(d, h, ProposeOp(name, arguments)))
  {
    hide Stands, ReceiptsAreTrue, Propose;
    ProposedIff(h, name, arguments);
    SameReceipts(h, d, Propose(h, name, arguments).host, Note(d, h, ProposeOp(name, arguments)));
  }

  lemma NoteIsTrue(w: World, d: Diary, op: Op)
    requires Sound(w) && True(w.host, d)
    ensures True(Perform(w, op).host, Note(d, w.host, op))
  {
    hide Sound, Propose, Confirm, Cancel, SendHeld, DeclineBroadcast, Trim, ReceiptsAreTrue, Stands;
    match op {
      case ProposeOp(name, arguments) => ProposeIsTrue(w.host, d, name, arguments);
      case ConfirmOp(env) => ConfirmIsTrue(w, d, env);
      case CancelOp(env) => CancelIsTrue(w.host, d, env);
      case BroadcastOp(env) => DecisionIsTrue(w.host, d, op);
      case DeclineOp(env) => DecisionIsTrue(w.host, d, op);
      case _ => SameReceipts(w.host, d, Perform(w, op).host, Note(d, w.host, op));
    }
  }

  /** After any run every receipt in the log is true: sealed by the device key, for the tool and the
      arguments that were proposed, with the decision that was made and what the tool gave or why it was
      denied; and the wallet was asked to sign only messages that were proposed. */
  lemma {:induction false} EveryReceiptIsTrue(ops: seq<Op>)
    ensures True(Run(ops).host, Kept(ops))
  {
    if ops != [] {
      var n := |ops| - 1;
      EveryReceiptIsTrue(ops[..n]);
      RunIsSound(ops[..n]);
      hide True, Perform, Note;
      NoteIsTrue(Run(ops[..n]), Kept(ops[..n]), ops[n]);
    }
  }

  /** A confirm asks the wallet to sign the proposed message and no other: answers to any other message
      cannot be seen. */
  lemma WalletSeesOnlyTheMessage(h: Host, d: Diary, env: Env, other: Env)
    requires PendingStands(h, d) && other == env.(signPersonal := other.signPersonal)
    requires d.proposal.Some? ==>
      var m := TextOf(d.proposal.value.arguments, "message"); env.signPersonal(m) == other.signPersonal(m)
    ensures Confirm(env, h) == Confirm(other, h)
  {
    hide ParseUnsigned, Canonical, Denotes, TextOf, IsMessage;
  }

  /** What may be broadcast: `0x` and 64 to 16384 digits, an even number of them. */
  lemma SignedRawIs(raw: string)
    ensures IsSignedRaw(raw) <==> "0x" <= raw && 66 <= |raw| <= 16386 && IsHex(raw[2..])
  {
    hide HexBytes;
    if "0x" <= raw {
      assert raw[..2] == "0x";
      HexBytesIff(raw[2..]);
    }
  }

  // ---------------------------------------------------------------- errors

  /** A decision that answers an error, a failed seal among them, changes nothing a person can see. */
  lemma FailedSealChangesNothing(h: Host, env: Env)
    ensures Confirm(env, h).result.Err? ==> SameLedger(h, Confirm(env, h).host)
    ensures Cancel(env, h).result.Err? ==> SameLedger(h, Cancel(env, h).host)
    ensures SendHeld(env, h).result.Err? ==> SameLedger(h, SendHeld(env, h).host)
    ensures DeclineBroadcast(env, h).result.Err? ==> SameLedger(h, DeclineBroadcast(env, h).host)
  {
    hide Execute, IsSignedRaw;
  }

  // ---------------------------------------------------------------- at most once

  /** A broadcast that reaches the network. */
  predicate Goes(h: Host, op: Op) {
    op.BroadcastOp? && h.held.Some? && h.unlocked && op.env.parseEndpoint(h.endpoint).Some? && IsSignedRaw(h.held.value.raw)
  }

  /** What the receipt of a broadcast will say. */
  function Verdict(env: Env, h: Host): (Decision, Line)
    requires h.held.Some?
  {
    var endpoint := env.parseEndpoint(h.endpoint);
    if !h.unlocked then (Denied, Line("host-broadcast-locked", []))
    else if endpoint.None? then (Denied, Line("host-no-rpc", []))
    else
      var hash := env.send(endpoint.value, h.held.value.raw);
      if hash.Some? then (Allowed, Line("host-broadcast", [hash.value])) else (Denied, Line("host-broadcast-failed", []))
  }

  /** The device key signs the receipt of this broadcast, or of this decline. */
  predicate Seals(h: Host, op: Op)
    requires op.BroadcastOp? || op.DeclineOp?
    requires h.held.Some?
  {
    var p := Pending(h.nextId, Broadcast, h.held.value.arguments, None);
    var (decision, line) := if op.BroadcastOp? then Verdict(op.env, h) else (Cancelled, Line("host-broadcast-held", []));
    op.env.deviceSign(Unsigned(op.env, h, p, decision, op.BroadcastOp?, line)).Some?
  }

  /** The held transaction goes out and the receipt of that is lost. */
  predicate Loses(h: Host, op: Op) {
    Goes(h, op) && !Seals(h, op)
  }

  /** The held transaction gets its receipt: sent, refused or declined. A broadcast of what is not a
      raw transaction gets none. */
  predicate Settles(h: Host, op: Op) {
    (op.BroadcastOp? || op.DeclineOp?) && h.held.Some? && Seals(h, op) &&
    (op.BroadcastOp? && h.unlocked && op.env.parseEndpoint(h.endpoint).Some? ==> IsSignedRaw(h.held.value.raw))
  }

  /** The held transaction has gone out, and no receipt says what became of it. */
  predicate Unsettled(ops: seq<Op>) {
    ops != [] &&
    var h, op := Run(ops[..|ops| - 1]).host, ops[|ops| - 1];
    Loses(h, op) || (Unsettled(ops[..|ops| - 1]) && !Settles(h, op))
  }

  /** Some broadcast reaches the network while the held transaction is unsettled. */
  predicate SendsUnsettled(ops: seq<Op>) {
    ops != [] &&
    (SendsUnsettled(ops[..|ops| - 1]) ||
     (Goes(Run(ops[..|ops| - 1]).host, ops[|ops| - 1]) && Unsettled(ops[..|ops| - 1])))
  }

  /** No two payloads belong to the same signing receipt. */
  ghost predicate SentOnce(w: World) {
    ReceiptsDiffer(w.sends)
  }

  ghost predicate ReceiptsDiffer(sends: seq<Sent>) {
    forall i, j :: 0 <= i < j < |sends| ==> sends[i].receipt != sends[j].receipt
  }

  lemma OneMoreSend(sends: seq<Sent>, s: Sent)
    requires forall i, j :: 0 <= i < j < |sends| ==> sends[i].receipt <= sends[j].receipt
    requires forall i :: 0 <= i < |sends| ==> sends[i].receipt <= s.receipt
    ensures ReceiptsDiffer(sends + [s]) <==>
      ReceiptsDiffer(sends) && (sends == [] || sends[|sends| - 1].receipt != s.receipt)
  {
    var more := sends + [s];
    assert forall i :: 0 <= i < |sends| ==> more[i] == sends[i];
    assert more[|sends|] == s;
    if ReceiptsDiffer(more) {
      assert sends != [] ==> more[|sends| - 1].receipt != more[|sends|].receipt;
    }
  }

  lemma ReceiptsSoFar(w: World)
    requires Sound(w)
    ensures forall i, j :: 0 <= i < j < |w.sends| ==> w.sends[i].receipt <= w.sends[j].receipt
    ensures forall i :: 0 <= i < |w.sends| ==> w.sends[i].receipt <= |w.signed| - 1
  {
    hide Signed, Broadcasts, Canonical, NormalTx;
    forall i | 0 <= i < |w.sends| ensures w.sends[i].receipt <= |w.signed| - 1 {
      assert WalletGave(w, w.sends[i].receipt, w.sends[i].payload);
    }
  }

  /** A confirm holds a transaction only with a new signing receipt, and never while one is held. */
  lemma ConfirmHolds(w: World, env: Env)
    requires Sound(w)
    ensures var o := Confirm(env, w.host);
      (w.host.held.Some? ==> Perform(w, ConfirmOp(env)) == w) &&
      (w.host.held.None? && o.host.held.Some? ==> o.result.Ok? && IsSigned(o.result.value))
  {
    hide Signed, Broadcasts, ParseUnsigned, Canonical, NormalTx;
  }

  lemma HeldIsKept(w: World, op: Op)
    requires Sound(w) && !op.ConfirmOp? && !op.BroadcastOp? && !op.DeclineOp?
    ensures var v := Perform(w, op);
      v.host.held == w.host.held && v.sends == w.sends && v.signed == w.signed
  {
    hide ParseUnsigned, Trim, Prepare;
  }

  /** The latest payload is the held transaction. */
  predicate HeldWasSent(w: World) {
    w.host.held.Some? && w.sends != [] && w.sends[|w.sends| - 1].receipt == |w.signed| - 1
  }

  lemma GoesIsSent(h: Host, env: Env)
    ensures Goes(h, BroadcastOp(env)) <==> SendHeld(env, h).sent.Some?
    ensures h.held.Some? ==> (SendHeld(env, h).host.held.None? <==> Settles(h, BroadcastOp(env)))
    ensures h.held.Some? ==> (DeclineBroadcast(env, h).host.held.None? <==> Settles(h, DeclineOp(env)))
    ensures SendHeld(env, h).host.held in {None, h.held} && DeclineBroadcast(env, h).host.held in {None, h.held}
  {
    hide IsSignedRaw;
  }

  lemma HeldWasSentStep(w: World, op: Op)
    requires Sound(w)
    ensures HeldWasSent(Perform(w, op)) <==> Loses(w.host, op) || (HeldWasSent(w) && !Settles(w.host, op))
    ensures SentOnce(Perform(w, op)) <==> SentOnce(w) && !(Goes(w.host, op) && HeldWasSent(w))
  {
    hide Sound, IsSignedRaw, Seals, Verdict, SendHeld, DeclineBroadcast, Confirm, ReceiptsDiffer;
    ReceiptsSoFar(w);
    match op {
      case BroadcastOp(env) =>
        GoesIsSent(w.host, env);
        OneMoreSend(w.sends, SentBy(w, env, if w.host.held.Some? then w.host.held.value.raw else ""));
        SentIsHeld(w.host, env);
      case DeclineOp(env) => GoesIsSent(w.host, env);
      case ConfirmOp(env) => ConfirmHolds(w, env);
      case _ => HeldIsKept(w, op);
    }
  }

  lemma SentIsHeld(h: Host, env: Env)
    ensures SendHeld(env, h).sent.Some? ==> h.held.Some? && SendHeld(env, h).sent.value == h.held.value.raw
  {
    hide IsSignedRaw;
  }

  lemma {:induction false} UnsettledIsSent(ops: seq<Op>)
    ensures Unsettled(ops) <==> HeldWasSent(Run(ops))
  {
    if ops != [] {
      UnsettledIsSent(ops[..|ops| - 1]);
      RunIsSound(ops[..|ops| - 1]);
      HeldWasSentStep(Run(ops[..|ops| - 1]), ops[|ops| - 1]);
    }
  }

  /** In a run, each signed transaction is sent at most once, exactly when no broadcast reaches the
      network while what is held went out before and still has no receipt. */
  lemma {:induction false} AtMostOnce(ops: seq<Op>)
    ensures SentOnce(Run(ops)) <==> !SendsUnsettled(ops)
  {
    if ops != [] {
      AtMostOnce(ops[..|ops| - 1]);
      UnsettledIsSent(ops[..|ops| - 1]);
      RunIsSound(ops[..|ops| - 1]);
      HeldWasSentStep(Run(ops[..|ops| - 1]), ops[|ops| - 1]);
    }
  }

  /** When the device key signs the receipt of every send, each signed transaction is sent at most once. */
  lemma {:induction false} SealedSendsOnce(ops: seq<Op>)
    requires forall n :: 0 <= n < |ops| && Goes(Run(ops[..n]).host, ops[n]) ==> Seals(Run(ops[..n]).host, ops[n])
    ensures SentOnce(Run(ops))
  {
    NothingUnsettled(ops);
    AtMostOnce(ops);
  }

  lemma {:induction false} NothingUnsettled(ops: seq<Op>)
    requires forall n :: 0 <= n < |ops| && Goes(Run(ops[..n]).host, ops[n]) ==> Seals(Run(ops[..n]).host, ops[n])
    ensures !Unsettled(ops) && !SendsUnsettled(ops)
  {
    hide Run, Goes, Seals, Settles;
    if ops != [] {
      var n := |ops| - 1;
      assert forall k :: 0 <= k < n ==> ops[..n][..k] == ops[..k] && ops[..n][k] == ops[k];
      NothingUnsettled(ops[..n]);
    }
  }

  // ---------------------------------------------------------------- a run that sends twice

  function SampleTx(): UnsignedTx {
    var to := Zeros(20);
    UnsignedTx(1, 0, 1, 21_000, to, "0x" + HexText(to), BytesOf(0, 32), Text(0), Text(1), [], "0x" + HexText([]))
  }

  function SampleRaw(): string {
    "0x" + HexText(Zeros(32))
  }

  /** A working device key, wallet and chain. */
  function WorkingEnv(): Env {
    Env("did:key:12345678", "0x00", body => Some("sealed"), message => Some("signed"), legacy => Some(SampleRaw()),
        url => Some(url), (url, raw) => Some("hash"), (kind, hash) => None, (url, body) => None, (kind, body) => None)
  }

  /** The same with a device key that does not sign. */
  function MuteEnv(): Env {
    WorkingEnv().(deviceSign := body => None)
  }

  /** Propose, unlock, confirm, and broadcast twice while the device key is mute. */
  function TwiceOps(): seq<Op> {
    [ProposeOp("wallet_sign_tx", Canonical(SampleTx())), Unlock(true), ConfirmOp(WorkingEnv()),
     BroadcastOp(MuteEnv()), BroadcastOp(MuteEnv())]
  }

  lemma SampleIsNormal()
    ensures NormalTx(SampleTx()) && IsSignedRaw(SampleRaw())
  {
    hide HexText, HexBytes, Text, Number, Pow, DecimalOk;
    PowersOfTwoAndTen();
    PowAdd(256, 8, 8);
    PowAdd(256, 16, 16);
    PowPositive(256, 16);
    PrintedIsAccepted(0);
    PrintedIsAccepted(1);
    HexRoundTrip(Zeros(32));
    assert SampleRaw()[..2] == "0x" && SampleRaw()[2..] == HexText(Zeros(32));
  }

  lemma RunOne(ops: seq<Op>, op: Op)
    ensures Run(ops + [op]) == Perform(Run(ops), op)
  {
    assert (ops + [op])[..|ops|] == ops;
  }

  lemma SampleIsProposed()
    ensures var w := Perform(NewWorld(), ProposeOp("wallet_sign_tx", Canonical(SampleTx())));
      w.host == NewHost().(nextId := 2, pending := Some(Pending(1, WalletSignTx, Canonical(SampleTx()), Some(SampleTx().toHex)))) &&
      w.proposed == Some(SampleTx()) && w.signings == [] && w.signed == [] && w.sends == []
  {
    hide NormalTx, Canonical, ParseUnsigned, SampleTx;
    SampleIsNormal();
    NormalRoundTrip(SampleTx());
  }

  lemma SampleIsConfirmed(w: World)
    requires w.host.pending.Some? && w.host.pending.value.kind.WalletSignTx? && w.host.held.None? && w.host.unlocked
    requires w.host.pending.value.arguments == Canonical(SampleTx()) && w.signed == []
    ensures var v := Perform(w, ConfirmOp(WorkingEnv()));
      v.host.held == Some(Held(SampleRaw(), Canonical(SampleTx()))) && v.host.unlocked && |v.signed| == 1 && v.sends == w.sends
  {
    hide NormalTx, Canonical, ParseUnsigned, SampleTx, SampleRaw;
    SampleIsNormal();
    NormalRoundTrip(SampleTx());
  }

  lemma RunThree(p: Op, u: Op, c: Op)
    ensures Run([p, u, c]) == Perform(Perform(Perform(NewWorld(), p), u), c)
  {
    hide Perform;
    RunOne([], p);
    RunOne([p], u);
    RunOne([p, u], c);
    assert [] + [p] == [p] && [p] + [u] == [p, u] && [p, u] + [c] == [p, u, c];
  }

  lemma Unlocks(w: World)
    ensures Perform(w, Unlock(true)) == w.(host := w.host.(unlocked := true))
  {}

  /** After propose, unlock and confirm the wallet's answer is held. */
  lemma SampleIsHeld()
    ensures var w := Run([ProposeOp("wallet_sign_tx", Canonical(SampleTx())), Unlock(true), ConfirmOp(WorkingEnv())]);
      w.host.held.Some? && w.host.held.value.raw == SampleRaw() && w.host.unlocked && |w.signed| == 1 && w.sends == []
  {
    hide Canonical, SampleTx, SampleRaw, Perform, Run, WorkingEnv;
    var p, u, c := ProposeOp("wallet_sign_tx", Canonical(SampleTx())), Unlock(true), ConfirmOp(WorkingEnv());
    SampleIsProposed();
    RunThree(p, u, c);
    Unlocks(Perform(NewWorld(), p));
    SampleIsConfirmed(Perform(Perform(NewWorld(), p), u));
  }

  /** The condition of `AtMostOnce` is met by a run from the start: the same payload goes out twice. */
  lemma SendsTwice()
    ensures Run(TwiceOps()).sends == [Sent(0, SampleRaw(), Some("hash")), Sent(0, SampleRaw(), Some("hash"))]
    ensures SendsUnsettled(TwiceOps()) && !SentOnce(Run(TwiceOps()))
  {
    hide NormalTx, Canonical, ParseUnsigned, SampleTx, SampleRaw, Run, IsSignedRaw, SendsUnsettled;
    var p, u, c := ProposeOp("wallet_sign_tx", Canonical(SampleTx())), Unlock(true), ConfirmOp(WorkingEnv());
    var b := BroadcastOp(MuteEnv());
    SampleIsNormal();
    SampleIsHeld();
    var w := Run([p, u, c]);
    MuteSend(w);
    MuteSend(Perform(w, b));
    RunOne([p, u, c], b);
    RunOne([p, u, c, b], b);
    assert [p, u, c] + [b] == [p, u, c, b] && [p, u, c, b] + [b] == TwiceOps();
    assert Run(TwiceOps()).sends[0].receipt == Run(TwiceOps()).sends[1].receipt;
    AtMostOnce(TwiceOps());
  }

  /** A broadcast under a mute key sends what is held and changes nothing else. */
  lemma MuteSend(w: World)
    requires w.host.held.Some? && w.host.unlocked && IsSignedRaw(w.host.held.value.raw)
    ensures Perform(w, BroadcastOp(MuteEnv())) ==
      w.(sends := w.sends + [Sent(|w.signed| - 1, w.host.held.value.raw, Some("hash"))])
  {
    hide IsSignedRaw, SampleRaw;
  }
}
