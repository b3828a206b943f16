/**
 * Runs of the program, and what a run has recorded.
 *
 * A run is a sequence of calls from outside: an instruction for this program, or the effects of other
 * programs. A rejected instruction leaves the accounts as they were (the runtime reverts it). The
 * history is read off the accepted calls alone, never off account data, so a claim that relates account
 * data to the history says who did what.
 */
module History {
  import opened Machine
  import opened State
  import opened Instructions
  import opened Layouts
  import opened Protocol

  datatype Call =
    | Invoke(metas: seq<AccountMeta>, data: seq<u8>, outcomes: Outcomes)
    | Other(effects: seq<Effect>)

  /** Who created a multisig with how many owners and which nonce. */
  datatype Founding = Founding(size: nat, nonce: u8)

  /**
   * A live proposal: its multisig, what it will run, how many owner changes its multisig had seen when
   * it was proposed, and who has signed it, each with the number of owner changes at that moment.
   */
  datatype Proposal = Proposal(
    multisig: Pubkey,
    instructions: seq<TransactionInstructionData>,
    epoch: nat,
    signed: set<(Pubkey, nat)>)

  datatype History = History(
    created: map<Pubkey, Founding>,
    proposals: map<Pubkey, Proposal>,
    changes: map<Pubkey, nat>)

  /** The number of owner changes multisig k has seen. */
  function Changes(h: History, k: Pubkey): nat {
    if k in h.changes then h.changes[k] else 0
  }

  predicate IsOwnerChange(i: MultisigInstruction) {
    i.SetOwners? || i.SetOwnersAndChangeThreshold?
  }

  predicate ChangesOwners(e: Env, ix: TransactionInstructionData) {
    ix.programId == e.programId && |ix.accounts| > 0 &&
    match DecodeInstruction(ix.data)
    case Some(i) => IsOwnerChange(i)
    case None => false
  }

  function CountChange(h: History, k: Pubkey): History {
    h.(changes := h.changes[k := Changes(h, k) + 1])
  }

  /** One executed instruction: an owner change is counted for the account it names first. */
  function RecordOne(e: Env, h: History, ix: TransactionInstructionData): History {
    if ChangesOwners(e, ix) then CountChange(h, ix.accounts[0].pubkey) else h
  }

  function RecordBatch(e: Env, h: History, ixs: seq<TransactionInstructionData>): History
    decreases |ixs|
  {
    if ixs == [] then h else RecordBatch(e, RecordOne(e, h, ixs[0]), ixs[1..])
  }

  /** Who holds a signature position of the call. */
  function Signature(h: History, metas: seq<AccountMeta>): (Pubkey, nat)
    requires |metas| >= 3
  {
    (metas[2].pubkey, Changes(h, metas[0].pubkey))
  }

  /** An accepted instruction. */
  function Record(e: Env, h: History, metas: seq<AccountMeta>, i: MultisigInstruction): History {
    match i
    case CreateMultisig(owners, _, nonce) =>
      if |metas| < 1 then h
      else h.(created := h.created[metas[0].pubkey := Founding(|owners|, nonce)])
    case ProposeTransaction(ixs) =>
      if |metas| < 3 then h
      else
        var p := Proposal(metas[0].pubkey, ixs, Changes(h, metas[0].pubkey), {Signature(h, metas)});
        h.(proposals := h.proposals[metas[1].pubkey := p])
    case ApproveTransaction =>
      if |metas| < 3 || metas[1].pubkey !in h.proposals then h
      else
        var p := h.proposals[metas[1].pubkey];
        h.(proposals := h.proposals[metas[1].pubkey := p.(signed := p.signed + {Signature(h, metas)})])
    case ExecuteTransaction =>
      if |metas| < 3 || metas[2].pubkey !in h.proposals then h
      else
        var ran := RecordBatch(e, h, h.proposals[metas[2].pubkey].instructions);
        ran.(proposals := ran.proposals - {metas[2].pubkey})
    case CancelTransaction =>
      if |metas| < 2 then h else h.(proposals := h.proposals - {metas[1].pubkey})
    case _ => h
  }

  datatype World = World(accounts: Accounts, history: History)

  function Next(e: Env, w: World, c: Call): World {
    match c
    case Other(effects) => (
      match ApplyEffects(e, w.accounts, effects)
      case Ok(s) => World(s, w.history)
      case Err(_) => w)
    case Invoke(metas, data, outcomes) =>
      match Process(e, w.accounts, metas, data, outcomes)
      case Ok(s) =>
        if DecodeInstruction(data).None? then w
        else World(s, Record(e, w.history, metas, DecodeInstruction(data).value))
      case Err(_) => w
  }

  const NOTHING: History := History(map[], map[], map[])

  /** The state after a run that starts before the program holds any account. */
  function After(e: Env, s0: Accounts, calls: seq<Call>): World {
    if calls == [] then World(s0, NOTHING)
    else Next(e, After(e, s0, calls[..|calls| - 1]), calls[|calls| - 1])
  }

  // ----- the standing hypotheses -----

  /** The derivation of signer addresses has no collisions, and the program is not the system program. */
  ghost predicate ValidEnv(e: Env) {
    && e.programId != e.systemId
    && (forall k, n, k', n' :: e.pda(k, n).Some? && e.pda(k, n) == e.pda(k', n') ==> k == k' && n == n')
  }

  /** Derived addresses have no private key. */
  ghost predicate Keyless(e: Env, k: Pubkey) {
    exists m, n :: e.pda(m, n) == Some(k)
  }

  /** A call from outside is signed by holders of private keys. */
  ghost predicate KeysSign(e: Env, metas: seq<AccountMeta>) {
    forall j :: 0 <= j < |metas| && metas[j].isSigner ==> !Keyless(e, metas[j].pubkey)
  }

  /** The call asks for a new multisig. */
  predicate Founds(c: Call) {
    c.Invoke? && |c.metas| > 0 &&
    match DecodeInstruction(c.data)
    case Some(i) => i.CreateMultisig?
    case None => false
  }

  /** A call from outside: signed by holders of keys, and founding multisigs at clear addresses only. */
  ghost predicate Admissible(e: Env, c: Call) {
    (c.Invoke? ==> KeysSign(e, c.metas)) && (Founds(c) ==> Clear(c.metas[0].pubkey, MAX_CREATED_DATA))
  }

  ghost predicate ValidCalls(e: Env, calls: seq<Call>) {
    forall j :: 0 <= j < |calls| ==> Admissible(e, calls[j])
  }

  /** Before the first call the program has written nothing: what it owns is zero-filled. */
  ghost predicate Genesis(e: Env, s: Accounts) {
    forall k :: k in s ==> s[k].data.Plain? && (s[k].owner == e.programId ==> Zeroed(s[k].data.bytes))
  }

  /** No multisig has had 2^32 owner changes (the counter in its account would wrap). */
  ghost predicate NoWrap(h: History) {
    forall k :: k in h.changes ==> h.changes[k] < TWO_32
  }
}
