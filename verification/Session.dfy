/** The intent session over its ledger: every durable change is written, and a fresh session reads it back. */
module Session {
  import opened Common
  import opened Bytes
  import opened Base64Url
  import opened Identity

  // ---------------------------------------------------------------- data

  datatype ActionReceipt = ActionReceipt(
    id: nat, actor: string, utterance: string, command: string, decision: Decision, confirmed: bool,
    outcome: string, tier: Tier, recordedAtMs: nat
  )

  /** A receipt the tool host signed; the session only keeps it. */
  datatype SignedReceipt = SignedReceipt(id: nat, body: string, signature: string)

  datatype Snapshot = Snapshot(
    pin: Option<string>,
    receipts: seq<ActionReceipt>,
    subject: Option<string>,
    enrollment: Enrollment,
    challenge: Option<string>,
    publicKey: Option<string>,
    signedReceipts: seq<SignedReceipt>
  )

  /** A session and the snapshot its ledger holds, if any was ever written. */
  datatype Value = Value(
    identity: State,
    receipts: seq<ActionReceipt>,
    signedReceipts: seq<SignedReceipt>,
    nextId: nat,
    disk: Option<Snapshot>
  )

  /** What must survive a restart. */
  datatype Durable = Durable(
    receipts: seq<ActionReceipt>,
    signedReceipts: seq<SignedReceipt>,
    subject: string,
    enrollment: Enrollment,
    challenge: Option<string>,
    publicKey: Option<string>,
    verifier: Option<string>,
    nextId: nat
  )

  function DurableOf(s: Value): Durable {
    var i := s.identity;
    Durable(s.receipts, s.signedReceipts, i.subject, i.enrollment, i.challenge, i.publicKey, i.verifier, s.nextId)
  }

  // ---------------------------------------------------------------- load and persist

  function SnapshotOf(s: Value): Snapshot {
    var i := s.identity;
    Snapshot(i.verifier, s.receipts, Some(i.subject), i.enrollment, i.challenge, i.publicKey, s.signedReceipts)
  }

  function Persist(s: Value): Value {
    s.(disk := Some(SnapshotOf(s)))
  }

  /** The largest id, or the given floor. */
  function MaxId(receipts: seq<ActionReceipt>, floor: nat): nat {
    if receipts == [] then floor else
      var m := MaxId(receipts[..|receipts| - 1], floor);
      if receipts[|receipts| - 1].id > m then receipts[|receipts| - 1].id else m
  }

  function NextAfter(receipts: seq<ActionReceipt>): nat {
    if receipts == [] then 1 else MaxId(receipts, 0) + 1
  }

  /** A fresh session opened over a ledger. `salt` is the randomness an old plaintext pin would need. */
  function Load(lib: Library, disk: Option<Snapshot>, salt: Option<seq<Byte>>): Value {
    if disk.None? then Value(Fresh(), [], [], 1, None) else
      var d := disk.value;
      var (identity, migrated) := RestoredIdentity(lib, d, salt);
      var s := Value(identity, d.receipts, d.signedReceipts, NextAfter(d.receipts), disk);
      if migrated then Persist(s) else s
  }

  /** The identity that a snapshot gives, and whether its pin had to be sealed. */
  function RestoredIdentity(lib: Library, d: Snapshot, salt: Option<seq<Byte>>): (State, bool) {
    var (i1, migrated) := if d.pin.Some? then RestoreLockedPin(lib, Fresh(), d.pin.value, salt) else (Fresh(), false);
    var i2 := if d.subject.Some? && InstallSubject(i1, d.subject.value).Some?
              then InstallSubject(i1, d.subject.value).value else i1;
    (RestoreMaterial(RestoreEnrollment(i2, d.enrollment), d.challenge, d.publicKey), migrated)
  }

  // ---------------------------------------------------------------- operations

  /** A new action receipt, as `push` is asked for it by propose, confirm, cancel and the context switches. */
  datatype Entry = Entry(
    utterance: string, command: string, decision: Decision, confirmed: bool, outcome: string, tier: Tier, nowMs: nat)

  datatype Op =
    | Push(entry: Entry)
    | RecordSigned(receipt: SignedReceipt)
    | NotePasskey
    | BeginPasskey(random: Option<seq<Byte>>)
    | AcceptAssertion(text: string, devicePublic: seq<Byte>)
    | StoreKey(key: seq<Byte>)
    | ReplaceSubject(subject: string)
    | UnlockWith(passphrase: string, salt: Option<seq<Byte>>)
    | Lock

  /** Random bytes and keys have the lengths their types give them. */
  predicate Typed(op: Op) {
    (op.BeginPasskey? && op.random.Some? ==> |op.random.value| == 32) &&
    (op.AcceptAssertion? ==> |op.devicePublic| == 32)
  }

  function ReceiptFor(s: Value, e: Entry): ActionReceipt {
    ActionReceipt(s.nextId, s.identity.subject, e.utterance, e.command, e.decision, e.confirmed, e.outcome, e.tier, e.nowMs)
  }

  /** Change the identity and write it, or do neither. */
  function WithIdentity(s: Value, i: Option<State>): Value {
    if i.None? then s else Persist(s.(identity := i.value))
  }

  function Perform(lib: Library, s: Value, op: Op): Value {
    var i := s.identity;
    match op
    case Push(e) => Persist(s.(receipts := s.receipts + [ReceiptFor(s, e)], nextId := s.nextId + 1))
    case RecordSigned(receipt) => Persist(s.(signedReceipts := s.signedReceipts + [receipt]))
    case NotePasskey => WithIdentity(s, Some(i.(enrollment := AwaitingPasskey)))
    case BeginPasskey(random) => WithIdentity(s, if random.None? then None else Some(BeginEnrollment(i, random)))
    case AcceptAssertion(text, key) =>
      var r := Accept(lib, i, text, key);
      WithIdentity(s, if r.Ok? then Some(r.value) else None)
    case StoreKey(key) => WithIdentity(s, StorePublicKey(i, key))
    case ReplaceSubject(subject) => WithIdentity(s, InstallSubject(i, subject))
    case UnlockWith(passphrase, salt) => WithIdentity(s, Unlock(lib, i, passphrase, salt))
    case Lock => s.(identity := i.(unlocked := false))
  }

  function Run(lib: Library, s: Value, ops: seq<Op>): Value {
    if ops == [] then s else Perform(lib, Run(lib, s, ops[..|ops| - 1]), ops[|ops| - 1])
  }

  // ---------------------------------------------------------------- what restoring needs

  /** Every stored value passes the filter that will read it back. */
  predicate Restorable(s: Value) {
    var i := s.identity;
    IsDidKey(i.subject) &&
    (i.verifier.Some? ==> IsVerifier(i.verifier.value)) &&
    (i.challenge.Some? ==> IsStoredChallenge(i.challenge.value)) &&
    (i.publicKey.Some? ==> IsStoredPublicKey(i.publicKey.value)) &&
    s.nextId == NextAfter(s.receipts)
  }

  lemma SubjectIsDidKey()
    ensures IsDidKey(SUBJECT)
  {
    hide Utf8Len;
    Prefixed("did:key:", "stub.local");
    assert SUBJECT == "did:key:" + "stub.local";
    AsciiLen("stub.local");
  }

  lemma Prefixed(prefix: string, rest: string)
    ensures StripPrefix(prefix + rest, prefix) == Some(rest)
  {}

  lemma SealedIsVerifier(lib: Library, pin: string, salt: seq<Byte>)
    ensures IsVerifier(SealPin(lib, pin, salt))
  {}

  lemma LoadIsRestorable(lib: Library, disk: Option<Snapshot>, salt: Option<seq<Byte>>)
    ensures Restorable(Load(lib, disk, salt))
  {
    hide IsDidKey, IsVerifier, IsStoredChallenge, IsStoredPublicKey, NextAfter, Contains, SealPin, VerifyPin;
    SubjectIsDidKey();
    assert NextAfter([]) == 1 by { NoReceipts(); }
    if disk.Some? && disk.value.pin.Some? && salt.Some? {
      SealedIsVerifier(lib, disk.value.pin.value, salt.value);
    }
  }

  lemma NoReceipts()
    ensures NextAfter([]) == 1
  {}

  lemma {:induction false} MaxIdBound(receipts: seq<ActionReceipt>, floor: nat)
    ensures floor <= MaxId(receipts, floor)
    ensures forall i :: 0 <= i < |receipts| ==> receipts[i].id <= MaxId(receipts, floor)
  {
    if receipts != [] { MaxIdBound(receipts[..|receipts| - 1], floor); }
  }

  lemma NextAfterPush(receipts: seq<ActionReceipt>, r: ActionReceipt)
    requires r.id == NextAfter(receipts)
    ensures NextAfter(receipts + [r]) == r.id + 1
    ensures forall i :: 0 <= i < |receipts| ==> receipts[i].id < r.id
  {
    MaxIdBound(receipts, 0);
    assert (receipts + [r])[..|receipts|] == receipts;
  }

  lemma EncodedMaterial(data: seq<Byte>)
    ensures |data| == 32 ==> IsStoredChallenge(Encode(data))
    ensures 1 <= |data| <= 128 ==> IsStoredPublicKey(Encode(data))
  {
    EncodedLength(data);
  }

  lemma PerformIsRestorable(lib: Library, s: Value, op: Op)
    requires Restorable(s) && Typed(op)
    ensures Restorable(Perform(lib, s, op))
  {
    hide IsDidKey, IsVerifier, IsStoredChallenge, IsStoredPublicKey, NextAfter, Contains, SealPin, VerifyPin, Decode, Encode, Utf8Len;
    match op {
      case Push(e) => NextAfterPush(s.receipts, ReceiptFor(s, e));
      case BeginPasskey(random) => if random.Some? { EncodedMaterial(random.value); }
      case AcceptAssertion(text, key) => EncodedMaterial(key);
      case StoreKey(key) => EncodedMaterial(key);
      case UnlockWith(passphrase, salt) => if salt.Some? { SealedIsVerifier(lib, passphrase, salt.value); }
      case _ =>
    }
  }

  // ---------------------------------------------------------------- reload is the identity

  /** Reading back what a restorable session has just written. */
  lemma WrittenReadsBack(lib: Library, s: Value, salt: Option<seq<Byte>>)
    requires Restorable(s) && s.disk == Some(SnapshotOf(s))
    ensures DurableOf(Load(lib, s.disk, salt)) == DurableOf(s)
  {
    hide IsDidKey, IsStoredChallenge, IsStoredPublicKey, NextAfter, Contains, SealPin;
  }

  /** An old plaintext pin is on the ledger. */
  predicate PlainPin(disk: Option<Snapshot>) {
    disk.Some? && disk.value.pin.Some? && disk.value.pin.value != "" && !IsVerifier(disk.value.pin.value)
  }

  /** Either nothing durable changed since the load, or the ledger holds exactly what the session holds. */
  predicate Settled(lib: Library, s: Value, disk: Option<Snapshot>, salt: Option<seq<Byte>>) {
    s.disk == Some(SnapshotOf(s)) || (s.disk == disk && DurableOf(s) == DurableOf(Load(lib, disk, salt)))
  }

  lemma {:induction false} RunIsSettled(
    lib: Library, disk: Option<Snapshot>, salt: Option<seq<Byte>>, ops: seq<Op>)
    requires forall i :: 0 <= i < |ops| ==> Typed(ops[i])
    ensures var s := Run(lib, Load(lib, disk, salt), ops);
      Restorable(s) && Settled(lib, s, disk, salt)
  {
    hide Load, Restorable, IsDidKey, IsVerifier, Contains, SealPin, VerifyPin, Accept, Decode, Encode;
    if ops == [] {
      LoadIsRestorable(lib, disk, salt);
      LoadIsSettled(lib, disk, salt);
    } else {
      var n := |ops| - 1;
      RunIsSettled(lib, disk, salt, ops[..n]);
      PerformIsRestorable(lib, Run(lib, Load(lib, disk, salt), ops[..n]), ops[n]);
    }
  }

  lemma LoadIsSettled(lib: Library, disk: Option<Snapshot>, salt: Option<seq<Byte>>)
    ensures Settled(lib, Load(lib, disk, salt), disk, salt)
  {}

  /** How a ledger is read does not depend on the randomness, unless a plaintext pin is on it. */
  lemma SaltDoesNotMatter(lib: Library, disk: Option<Snapshot>, salt: Option<seq<Byte>>, again: Option<seq<Byte>>)
    requires !PlainPin(disk)
    ensures Load(lib, disk, salt) == Load(lib, disk, again)
  {
    hide IsDidKey, Contains, NextAfter;
  }

  /** After any run over any ledger, a fresh session reads back everything durable, except when a
      plaintext pin is still on the ledger and there is randomness to seal it now. */
  lemma ReloadIsIdentity(
    lib: Library, disk: Option<Snapshot>, salt: Option<seq<Byte>>, ops: seq<Op>, again: Option<seq<Byte>>)
    requires forall i :: 0 <= i < |ops| ==> Typed(ops[i])
    ensures var s := Run(lib, Load(lib, disk, salt), ops);
      DurableOf(Load(lib, s.disk, again)) == DurableOf(s) <==> !(PlainPin(s.disk) && again.Some?)
  {
    hide Load, Run;
    var s := Run(lib, Load(lib, disk, salt), ops);
    RunIsSettled(lib, disk, salt, ops);
    if s.disk == Some(SnapshotOf(s)) {
      WrittenReadsBack(lib, s, again);
    } else if PlainPin(s.disk) {
      PinStaysPlain(lib, disk, salt, ops);
      if again.Some? { SealedOnLoad(lib, s.disk, again.value); }
    } else {
      SaltDoesNotMatter(lib, disk, salt, again);
    }
  }

  /** A plaintext pin is on the ledger after a run only if it was there before, there was no randomness
      to seal it with, and nothing durable was changed by the run. */
  lemma {:induction false} PinStaysPlain(lib: Library, disk: Option<Snapshot>, salt: Option<seq<Byte>>, ops: seq<Op>)
    requires forall i :: 0 <= i < |ops| ==> Typed(ops[i])
    ensures var s := Run(lib, Load(lib, disk, salt), ops);
      PlainPin(s.disk) ==> s.disk == disk && salt.None? && DurableOf(s) == DurableOf(Load(lib, disk, salt))
  {
    hide Load, Run;
    var s := Run(lib, Load(lib, disk, salt), ops);
    RunIsSettled(lib, disk, salt, ops);
    if PlainPin(disk) && salt.Some? {
      SealedIsWritten(lib, disk, salt.value, ops);
    }
  }

  /** A pin sealed at load is written at once, and the ledger holds the session ever after. */
  lemma {:induction false} SealedIsWritten(lib: Library, disk: Option<Snapshot>, salt: seq<Byte>, ops: seq<Op>)
    requires PlainPin(disk)
    ensures var s := Run(lib, Load(lib, disk, Some(salt)), ops);
      s.disk == Some(SnapshotOf(s))
  {
    hide IsDidKey, IsVerifier, Contains, SealPin, VerifyPin, Accept, Decode, Encode, NextAfter;
    if ops != [] {
      SealedIsWritten(lib, disk, salt, ops[..|ops| - 1]);
    }
  }

  /** The exception is real: without randomness the session holds no pin, and a later load seals one. */
  lemma SealedOnLoad(lib: Library, disk: Option<Snapshot>, salt: seq<Byte>)
    requires PlainPin(disk)
    ensures Load(lib, disk, None).identity.verifier == None
    ensures Load(lib, disk, Some(salt)).identity.verifier == Some(SealPin(lib, disk.value.pin.value, salt))
  {
    hide IsDidKey, Contains, SealPin, NextAfter;
  }

  /** Whether an operation writes to the ledger. */
  predicate Writes(lib: Library, s: Value, op: Op) {
    match op
    case Push(_) => true
    case RecordSigned(_) => true
    case NotePasskey => true
    case BeginPasskey(random) => random.Some?
    case AcceptAssertion(text, key) => Accept(lib, s.identity, text, key).Ok?
    case StoreKey(key) => s.identity.challenge.Some? && 1 <= |key| <= 128
    case ReplaceSubject(subject) => IsDidKey(subject)
    case UnlockWith(passphrase, salt) =>
      passphrase != "" && if s.identity.verifier.Some? then VerifyPin(lib, passphrase, s.identity.verifier.value) else salt.Some?
    case Lock => false
  }

  lemma WritesOrNot(lib: Library, s: Value, op: Op)
    ensures Perform(lib, s, op).disk == if Writes(lib, s, op) then Some(SnapshotOf(Perform(lib, s, op))) else s.disk
  {
    hide Accept, IsDidKey, VerifyPin, SealPin, Contains, Encode;
  }

  /** No operation of the run writes. */
  predicate NeverWrites(lib: Library, s: Value, ops: seq<Op>) {
    ops == [] ||
    (NeverWrites(lib, s, ops[..|ops| - 1]) && !Writes(lib, Run(lib, s, ops[..|ops| - 1]), ops[|ops| - 1]))
  }

  /** The seal of the first passphrase that is given with randomness to seal it. */
  function FirstSeal(lib: Library, ops: seq<Op>): Option<string> {
    if ops == [] then None else
      var op, before := ops[|ops| - 1], FirstSeal(lib, ops[..|ops| - 1]);
      if before.None? && op.UnlockWith? && op.passphrase != "" && op.salt.Some?
      then Some(SealPin(lib, op.passphrase, op.salt.value)) else before
  }

  lemma VerifierStep(lib: Library, s: Value, op: Op)
    ensures Perform(lib, s, op).identity.verifier ==
      if s.identity.verifier.None? && op.UnlockWith? && op.passphrase != "" && op.salt.Some?
      then Some(SealPin(lib, op.passphrase, op.salt.value)) else s.identity.verifier
  {
    hide IsDidKey, VerifyPin, SealPin, Contains, Encode;
    if op.AcceptAssertion? { AcceptKeepsVerifier(lib, s.identity, op.text, op.devicePublic); }
  }

  lemma AcceptKeepsVerifier(lib: Library, i: State, text: string, key: seq<Byte>)
    ensures Accept(lib, i, text, key).Ok? ==> Accept(lib, i, text, key).value.verifier == i.verifier
  {
    hide Decode, Encode, IsDidKey, Contains, RpHash, Utf8Len;
  }

  /** The first write of such a session, whatever it is, erases the plaintext pin. From then on the
      ledger holds the seal of the first passphrase the session was given with randomness, or no pin
      until there is one; what the pin was does not matter. */
  lemma {:induction false} WriteErasesThePin(lib: Library, disk: Option<Snapshot>, ops: seq<Op>)
    requires PlainPin(disk)
    ensures var start := Load(lib, disk, None);
      var s := Run(lib, start, ops);
      s.identity.verifier == FirstSeal(lib, ops) &&
      if NeverWrites(lib, start, ops) then s.disk == disk
      else s.disk == Some(SnapshotOf(s)) && s.disk.value.pin == FirstSeal(lib, ops)
  {
    hide Load, Perform, Writes, SealPin;
    if ops == [] {
      LoadsNoPin(lib, disk);
    } else {
      var n := |ops| - 1;
      var before := Run(lib, Load(lib, disk, None), ops[..n]);
      WriteErasesThePin(lib, disk, ops[..n]);
      WritesOrNot(lib, before, ops[n]);
      VerifierStep(lib, before, ops[n]);
      KeptUnlessWritten(lib, before, ops[n]);
    }
  }

  lemma LoadsNoPin(lib: Library, disk: Option<Snapshot>)
    requires PlainPin(disk)
    ensures var s := Load(lib, disk, None);
      s.identity.verifier == None && s.disk == disk
  {
    hide IsDidKey, Contains, NextAfter;
  }

  /** What is not written is not changed. */
  lemma KeptUnlessWritten(lib: Library, s: Value, op: Op)
    ensures !Writes(lib, s, op) ==> SnapshotOf(Perform(lib, s, op)) == SnapshotOf(s)
  {
    hide Accept, IsDidKey, VerifyPin, SealPin, Contains, Encode;
  }

  /** The identity method is not durable: a reload derives it from subject and enrollment. */
  lemma ReloadedMethod(lib: Library, s: Value, salt: Option<seq<Byte>>)
    requires Restorable(s) && s.disk == Some(SnapshotOf(s))
    ensures Load(lib, s.disk, salt).identity.method_ ==
      if Contains(s.identity.subject, "stub") then Stub
      else if s.identity.enrollment.AssertionVerified? then Passkey else DidKey
  {
    hide IsStoredChallenge, IsStoredPublicKey, NextAfter, Contains, SealPin;
  }

  // ---------------------------------------------------------------- locked and unlocked

  /** The passphrase has the key of this verifier. */
  ghost predicate Matches(lib: Library, passphrase: string, stored: string) {
    exists salt, hash :: ParseVerifier(stored) == Some((salt, hash)) && lib.derive(passphrase, salt) == hash
  }

  /** An unlock that is accepted: a passphrase that matches the verifier of that moment, or the first one
      while there is none, when it can be sealed. */
  ghost predicate Opens(lib: Library, s: Value, op: Op) {
    op.UnlockWith? && op.passphrase != "" &&
    if s.identity.verifier.Some? then Matches(lib, op.passphrase, s.identity.verifier.value) else op.salt.Some?
  }

  /** Some unlock of the run was accepted, and there was no lock after it. */
  ghost predicate IsOpen(lib: Library, s: Value, ops: seq<Op>) {
    ops != [] &&
    var n := |ops| - 1;
    Opens(lib, Run(lib, s, ops[..n]), ops[n]) || (IsOpen(lib, s, ops[..n]) && ops[n] != Lock)
  }

  lemma LoadsLocked(lib: Library, disk: Option<Snapshot>, salt: Option<seq<Byte>>)
    ensures !Load(lib, disk, salt).identity.unlocked
  {
    hide IsDidKey, Contains, SealPin, NextAfter, IsVerifier;
  }

  lemma UnlockedStep(lib: Library, s: Value, op: Op)
    ensures Perform(lib, s, op).identity.unlocked <==> Opens(lib, s, op) || (s.identity.unlocked && op != Lock)
  {
    hide IsDidKey, Contains, SealPin, Encode, ParseVerifier, Accept;
    if op.AcceptAssertion? { AcceptKeeps(lib, s.identity, op.text, op.devicePublic); }
  }

  /** An accepted assertion binds the subject to the key, and does not unlock. */
  lemma AcceptKeeps(lib: Library, i: State, text: string, key: seq<Byte>)
    ensures var r := Accept(lib, i, text, key);
      r.Ok? ==> r.value == i.(subject := lib.did(key), method_ := Passkey, enrollment := AssertionVerified,
                              publicKey := Some(Encode(key)))
  {
    hide Decode, Encode, IsDidKey, Contains, RpHash, Utf8Len;
  }

  /** A session is locked when it is opened, and after any run it is unlocked exactly when an unlock was
      accepted with no lock after it. Nothing else unlocks. */
  lemma {:induction false} UnlockedIff(lib: Library, disk: Option<Snapshot>, salt: Option<seq<Byte>>, ops: seq<Op>)
    ensures var start := Load(lib, disk, salt);
      Run(lib, start, ops).identity.unlocked <==> IsOpen(lib, start, ops)
  {
    hide Load, Perform, Opens;
    LoadsLocked(lib, disk, salt);
    if ops != [] {
      var n := |ops| - 1;
      UnlockedIff(lib, disk, salt, ops[..n]);
      UnlockedStep(lib, Run(lib, Load(lib, disk, salt), ops[..n]), ops[n]);
    }
  }

  // ---------------------------------------------------------------- who changes what

  /** The subject after a run: the latest one that was replaced by a did:key or bound by an assertion. */
  function SubjectAfter(lib: Library, s: Value, ops: seq<Op>): string {
    if ops == [] then s.identity.subject else
      var n := |ops| - 1;
      var before, op := Run(lib, s, ops[..n]), ops[n];
      if op.ReplaceSubject? && IsDidKey(op.subject) then op.subject
      else if op.AcceptAssertion? && Accept(lib, before.identity, op.text, op.devicePublic).Ok? then lib.did(op.devicePublic)
      else SubjectAfter(lib, s, ops[..n])
  }

  lemma {:induction false} SubjectIsThat(lib: Library, s: Value, ops: seq<Op>)
    ensures Run(lib, s, ops).identity.subject == SubjectAfter(lib, s, ops)
  {
    if ops != [] {
      var n := |ops| - 1;
      SubjectIsThat(lib, s, ops[..n]);
      hide Run, SubjectAfter, IsDidKey, Contains, SealPin, Encode, ParseVerifier, Accept;
      var before := Run(lib, s, ops[..n]);
      if ops[n].AcceptAssertion? { AcceptKeeps(lib, before.identity, ops[n].text, ops[n].devicePublic); }
    }
    RunUnfolds(lib, s, ops);
  }

  lemma RunUnfolds(lib: Library, s: Value, ops: seq<Op>)
    ensures ops != [] ==> Run(lib, s, ops) == Perform(lib, Run(lib, s, ops[..|ops| - 1]), ops[|ops| - 1])
  {}

  /** The accepted operations that touch the passkey material, by guards on the state before. */
  predicate Mints(op: Op) {
    op.BeginPasskey? && op.random.Some?
  }

  predicate Stores(s: Value, op: Op) {
    op.StoreKey? && s.identity.challenge.Some? && 1 <= |op.key| <= 128
  }

  predicate Binds(lib: Library, s: Value, op: Op) {
    op.AcceptAssertion? && Accept(lib, s.identity, op.text, op.devicePublic).Ok?
  }

  /** The latest challenge that was minted. */
  function ChallengeAfter(lib: Library, s: Value, ops: seq<Op>): Option<string> {
    if ops == [] then s.identity.challenge else
      var op := ops[|ops| - 1];
      if Mints(op) then Some(Encode(op.random.value)) else ChallengeAfter(lib, s, ops[..|ops| - 1])
  }

  /** The latest key that was stored or bound, unless a challenge was minted after it. */
  function KeyAfter(lib: Library, s: Value, ops: seq<Op>): Option<string> {
    if ops == [] then s.identity.publicKey else
      var before, op := Run(lib, s, ops[..|ops| - 1]), ops[|ops| - 1];
      if Mints(op) then None
      else if Stores(before, op) then Some(Encode(op.key))
      else if Binds(lib, before, op) then Some(Encode(op.devicePublic))
      else KeyAfter(lib, s, ops[..|ops| - 1])
  }

  /** The state of the latest step of the ceremony. */
  function EnrollmentAfter(lib: Library, s: Value, ops: seq<Op>): Enrollment {
    if ops == [] then s.identity.enrollment else
      var before, op := Run(lib, s, ops[..|ops| - 1]), ops[|ops| - 1];
      if Mints(op) || op.NotePasskey? then AwaitingPasskey
      else if Stores(before, op) then KeyMaterialStored
      else if Binds(lib, before, op) then AssertionVerified
      else EnrollmentAfter(lib, s, ops[..|ops| - 1])
  }

  /** How the subject was given: by a passkey, or as a did:key, the stub's or another. */
  function MethodAfter(lib: Library, s: Value, ops: seq<Op>): Method {
    if ops == [] then s.identity.method_ else
      var before, op := Run(lib, s, ops[..|ops| - 1]), ops[|ops| - 1];
      if Binds(lib, before, op) then Passkey
      else if op.ReplaceSubject? && IsDidKey(op.subject) then if Contains(op.subject, "stub") then Stub else DidKey
      else MethodAfter(lib, s, ops[..|ops| - 1])
  }

  lemma MaterialStep(lib: Library, s: Value, op: Op)
    ensures var i, j := s.identity, Perform(lib, s, op).identity;
      j.challenge == (if Mints(op) then Some(Encode(op.random.value)) else i.challenge) &&
      j.publicKey == (if Mints(op) then None else if Stores(s, op) then Some(Encode(op.key))
                      else if Binds(lib, s, op) then Some(Encode(op.devicePublic)) else i.publicKey) &&
      j.enrollment == (if Mints(op) || op.NotePasskey? then AwaitingPasskey else if Stores(s, op) then KeyMaterialStored
                       else if Binds(lib, s, op) then AssertionVerified else i.enrollment) &&
      j.method_ == (if Binds(lib, s, op) then Passkey
                    else if op.ReplaceSubject? && IsDidKey(op.subject) then if Contains(op.subject, "stub") then Stub else DidKey
                    else i.method_)
  {
    hide IsDidKey, Contains, SealPin, Encode, ParseVerifier, Accept;
    if op.AcceptAssertion? { AcceptKeeps(lib, s.identity, op.text, op.devicePublic); }
  }

  /** The passkey material of a session is what the latest accepted step of each kind left. */
  lemma {:induction false} MaterialIsThat(lib: Library, s: Value, ops: seq<Op>)
    ensures var i := Run(lib, s, ops).identity;
      i.challenge == ChallengeAfter(lib, s, ops) && i.publicKey == KeyAfter(lib, s, ops) &&
      i.enrollment == EnrollmentAfter(lib, s, ops) && i.method_ == MethodAfter(lib, s, ops)
  {
    hide Perform, IsDidKey, Contains, Encode, Accept, Mints, Stores, Binds;
    if ops != [] {
      MaterialIsThat(lib, s, ops[..|ops| - 1]);
      MaterialStep(lib, Run(lib, s, ops[..|ops| - 1]), ops[|ops| - 1]);
    }
  }

  /** Receipts are only added: the signed ones as they were recorded, the others numbered on from where
      the session was opened, each under the subject of its moment. */
  lemma {:induction false} ReceiptsOnlyGrow(lib: Library, s: Value, ops: seq<Op>)
    ensures var t := Run(lib, s, ops);
      s.receipts <= t.receipts && s.signedReceipts <= t.signedReceipts &&
      t.nextId == s.nextId + |t.receipts| - |s.receipts| &&
      forall k :: |s.receipts| <= k < |t.receipts| ==> t.receipts[k].id == s.nextId + k - |s.receipts|
  {
    if ops != [] {
      ReceiptsOnlyGrow(lib, s, ops[..|ops| - 1]);
      ReceiptStep(lib, Run(lib, s, ops[..|ops| - 1]), ops[|ops| - 1]);
    }
  }

  lemma ReceiptStep(lib: Library, s: Value, op: Op)
    ensures var t := Perform(lib, s, op);
      (if op.Push? then
         t.nextId == s.nextId + 1 && |t.receipts| == |s.receipts| + 1 && s.receipts <= t.receipts &&
         var r, e := t.receipts[|s.receipts|], op.entry;
         r.id == s.nextId && r.actor == s.identity.subject && r.utterance == e.utterance && r.command == e.command &&
         r.decision == e.decision && r.confirmed == e.confirmed && r.outcome == e.outcome && r.tier == e.tier &&
         r.recordedAtMs == e.nowMs
       else t.nextId == s.nextId && t.receipts == s.receipts) &&
      t.signedReceipts == s.signedReceipts + if op.RecordSigned? then [op.receipt] else []
  {
    hide IsDidKey, Contains, SealPin, Encode, VerifyPin, Accept;
  }

  // ---------------------------------------------------------------- the session as the shell holds it

  /** The pin, the subject, the enrollment and the passkey material, in this order. */
  method RestoreInto(identity: LocalIdentity, lib: Library, d: Snapshot, salt: Option<seq<Byte>>)
    returns (migrated: bool)
    requires identity.Get() == Fresh()
    modifies identity
    ensures (identity.Get(), migrated) == RestoredIdentity(lib, d, salt)
  {
    hide RestoreLockedPin, InstallSubject, RestoreEnrollment, RestoreMaterial;
    migrated := false;
    if d.pin.Some? {
      migrated := identity.RestorePin(lib, d.pin.value, salt);
    }
    if d.subject.Some? {
      var installed := identity.Install(d.subject.value);
    }
    identity.SetEnrollment(d.enrollment);
    identity.Restore(d.challenge, d.publicKey);
  }

  class IntentSession {
    const identity: LocalIdentity
    var receipts: seq<ActionReceipt>
    var signedReceipts: seq<SignedReceipt>
    var nextId: nat
    /** The ledger file: what a fresh session would load. */
    var disk: Option<Snapshot>

    ghost function Get(): Value
      reads this, identity
    {
      Value(identity.Get(), receipts, signedReceipts, nextId, disk)
    }

    constructor WithLedger(lib: Library, stored: Option<Snapshot>, salt: Option<seq<Byte>>)
      ensures fresh(identity) && Get() == Load(lib, stored, salt)
    {
      hide RestoredIdentity, MaxId;
      identity := new LocalIdentity();
      receipts, signedReceipts, nextId, disk := [], [], 1, stored;
      new;
      var migrated := false;
      if stored.Some? {
        var d := stored.value;
        migrated := RestoreInto(identity, lib, d, salt);
        if d.receipts != [] {
          nextId := MaxId(d.receipts, 0) + 1;
        }
        receipts, signedReceipts := d.receipts, d.signedReceipts;
      }
      if migrated {
        WriteBack();
      }
    }

    method WriteBack()
      modifies this`disk
      ensures Get() == Persist(old(Get()))
    {
      disk := Some(Snapshot(identity.verifier, receipts, Some(identity.subject), identity.enrollment,
                            identity.challenge, identity.publicKey, signedReceipts));
    }

    method PushReceipt(lib: Library, e: Entry) returns (receipt: ActionReceipt)
      modifies this
      ensures Get() == Perform(lib, old(Get()), Push(e)) && receipt == ReceiptFor(old(Get()), e)
    {
      receipt := ActionReceipt(
        nextId, identity.subject, e.utterance, e.command, e.decision, e.confirmed, e.outcome, e.tier, e.nowMs);
      nextId := nextId + 1;
      receipts := receipts + [receipt];
      WriteBack();
    }

    method Record(lib: Library, receipt: SignedReceipt)
      modifies this
      ensures Get() == Perform(lib, old(Get()), RecordSigned(receipt))
    {
      signedReceipts := signedReceipts + [receipt];
      WriteBack();
    }

    method Note(lib: Library)
      modifies this, identity
      ensures Get() == Perform(lib, old(Get()), NotePasskey)
    {
      identity.Note();
      WriteBack();
    }

    method Begin(lib: Library, random: Option<seq<Byte>>) returns (minted: Option<string>)
      modifies this, identity
      ensures Get() == Perform(lib, old(Get()), BeginPasskey(random))
      ensures minted == if random.None? then None else Some(Encode(random.value))
      ensures random.Some? ==> Get().identity.challenge == minted && Get().disk == Some(SnapshotOf(Get()))
    {
      minted := identity.Begin(random);
      if minted.None? {
        return;
      }
      WriteBack();
    }

    method AcceptText(lib: Library, text: string, devicePublic: seq<Byte>) returns (ok: bool)
      modifies this, identity
      ensures Get() == Perform(lib, old(Get()), AcceptAssertion(text, devicePublic))
      ensures ok <==> Accept(lib, old(Get()).identity, text, devicePublic).Ok?
    {
      var r := identity.AcceptAssertion(lib, text, devicePublic);
      if r.Err? {
        return false;
      }
      WriteBack();
      ok := true;
    }

    method Store(lib: Library, key: seq<Byte>) returns (ok: bool)
      modifies this, identity
      ensures Get() == Perform(lib, old(Get()), StoreKey(key))
      ensures ok <==> old(Get()).identity.challenge.Some? && 1 <= |key| <= 128
    {
      ok := identity.StoreKey(key);
      if ok {
        WriteBack();
      }
    }

    method Replace(lib: Library, subject: string) returns (ok: bool)
      modifies this, identity
      ensures Get() == Perform(lib, old(Get()), ReplaceSubject(subject))
      ensures ok <==> IsDidKey(subject)
    {
      ok := identity.Install(subject);
      if ok {
        WriteBack();
      }
    }

    method UnlockSession(lib: Library, passphrase: string, salt: Option<seq<Byte>>) returns (ok: bool)
      modifies this, identity
      ensures Get() == Perform(lib, old(Get()), UnlockWith(passphrase, salt))
      ensures var v := old(Get()).identity.verifier;
        ok <==> passphrase != "" && if v.Some? then VerifyPin(lib, passphrase, v.value) else salt.Some?
    {
      ok := identity.UnlockWith(lib, passphrase, salt);
      if ok {
        WriteBack();
      }
    }

    method LockSession(lib: Library)
      modifies identity
      ensures Get() == Perform(lib, old(Get()), Lock)
    {
      identity.Lock();
    }
  }
}
