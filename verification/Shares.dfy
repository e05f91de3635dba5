/** Recovery's Share C table (apps/recovery/src/shares/shares.service.ts). */
module Shares {
  import opened Types
  import opened Routing
  import opened Withdraws

  datatype ShareStatus = SHARE_ACTIVE | SHARE_RETIRED

  /** The ciphertext is wiped when the share is retired. */
  datatype ShareC = ShareC(user: UserId, publicKey: string, sealed: Option<SealedShare>, status: ShareStatus)

  datatype ShareError = ALREADY_EXISTS | RETIRED_FOREVER | NOT_FOUND | NOT_ACTIVE | NOT_PARTY_C | PAYLOAD_TOO_SHORT

  const MIN_SHARE_BYTES: nat := 32

  /** Any existing row blocks an insert; its status only chooses the error. */
  function AssertInsertAllowed(existing: Option<ShareC>): Option<ShareError> {
    match existing
    case None => None
    case Some(s) => if s.status == SHARE_RETIRED then Some(RETIRED_FOREVER) else Some(ALREADY_EXISTS)
  }

  function Existing(shares: map<WalletId, ShareC>, w: WalletId): Option<ShareC> {
    if w in shares then Some(shares[w]) else None
  }

  function Insert(shares: map<WalletId, ShareC>, w: WalletId, user: UserId, publicKey: string, sealed: SealedShare)
    : Result<map<WalletId, ShareC>, ShareError>
  {
    match AssertInsertAllowed(Existing(shares, w))
    case Some(err) => Err(err)
    case None => Ok(shares[w := ShareC(user, publicKey, Some(sealed), SHARE_ACTIVE)])
  }

  function LoadActive(shares: map<WalletId, ShareC>, w: WalletId): Result<SealedShare, ShareError> {
    if w !in shares then Err(NOT_FOUND)
    else if shares[w].status != SHARE_ACTIVE || shares[w].sealed.None? then Err(NOT_ACTIVE)
    else Ok(shares[w].sealed.value)
  }

  function Retire(shares: map<WalletId, ShareC>, w: WalletId): Result<map<WalletId, ShareC>, ShareError> {
    if w !in shares then Err(NOT_FOUND)
    else if shares[w].status == SHARE_RETIRED then Ok(shares)
    else Ok(shares[w := shares[w].(status := SHARE_RETIRED, sealed := None)])
  }

  /** An ACTIVE row has its ciphertext and a RETIRED row has none. */
  ghost predicate Wiped(shares: map<WalletId, ShareC>) {
    forall w :: w in shares ==> (shares[w].status == SHARE_ACTIVE <==> shares[w].sealed.Some?)
  }

  datatype TableOp =
    | DoInsert(wallet: WalletId, user: UserId, publicKey: string, sealed: SealedShare)
    | DoRetire(wallet: WalletId)

  function Apply(shares: map<WalletId, ShareC>, op: TableOp): map<WalletId, ShareC> {
    var r := match op
      case DoInsert(w, u, k, s) => Insert(shares, w, u, k, s)
      case DoRetire(w) => Retire(shares, w);
    match r case Ok(after) => after case Err(_) => shares
  }

  /** An insert adds an ACTIVE row exactly on a free id; a retirement wipes an ACTIVE row; nothing else changes. */
  lemma TableOpsMean(shares: map<WalletId, ShareC>, w: WalletId, user: UserId, publicKey: string, sealed: SealedShare)
    ensures Apply(shares, DoInsert(w, user, publicKey, sealed))
            == if w in shares then shares else shares[w := ShareC(user, publicKey, Some(sealed), SHARE_ACTIVE)]
    ensures var after := Apply(shares, DoRetire(w));
            && after.Keys == shares.Keys
            && (forall v :: v in shares && v != w ==> after[v] == shares[v])
            && (w in shares ==> after[w] == if shares[w].status == SHARE_ACTIVE then shares[w].(status := SHARE_RETIRED, sealed := None)
                                            else shares[w])
    ensures LoadActive(shares, w).Ok? <==> w in shares && shares[w].status == SHARE_ACTIVE && shares[w].sealed.Some?
    ensures LoadActive(shares, w).Ok? ==> Some(LoadActive(shares, w).value) == shares[w].sealed
  {
  }

  function ApplyAll(shares: map<WalletId, ShareC>, ops: seq<TableOp>): map<WalletId, ShareC>
    decreases |ops|
  {
    if ops == [] then shares else ApplyAll(Apply(shares, ops[0]), ops[1..])
  }

  /** A retired share stays retired and unloadable, whatever is called afterwards. */
  lemma {:induction false} RetirementIsForever(shares: map<WalletId, ShareC>, w: WalletId, ops: seq<TableOp>)
    requires Wiped(shares) && w in shares && shares[w].status == SHARE_RETIRED
    ensures var after := ApplyAll(shares, ops);
            Wiped(after) && w in after && after[w] == shares[w] && LoadActive(after, w) == Err(NOT_ACTIVE)
    decreases |ops|
  {
    if ops != [] {
      RetirementIsForever(Apply(shares, ops[0]), w, ops[1..]);
    }
  }

  class SharesService {
    var shares: map<WalletId, ShareC>

    constructor ()
      ensures shares == map[]
    {
      shares := map[];
    }

    /** The insert made by a finished key generation. */
    method CreateShareC(w: WalletId, user: UserId, publicKey: string, sealed: SealedShare) returns (err: Option<ShareError>)
      modifies this
      ensures err.None? <==> w !in old(shares)
      ensures shares == Apply(old(shares), DoInsert(w, user, publicKey, sealed))
    {
      err := AssertInsertAllowed(Existing(shares, w));
      if err.None? {
        shares := shares[w := ShareC(user, publicKey, Some(sealed), SHARE_ACTIVE)];
      }
    }

    /** The insert of a share handed over as bytes; nothing but party C's, and nothing shorter than a key. */
    method InsertShareC(
      w: WalletId, user: UserId, publicKey: string, partyId: Option<nat>, share: seq<bv8>, seal: seq<bv8> -> SealedShare)
      returns (err: Option<ShareError>)
      modifies this
      ensures err.None? <==> partyId in {None, Some(PARTY_C)} && w !in old(shares) && |share| >= 32
      ensures shares == if err.None? then Apply(old(shares), DoInsert(w, user, publicKey, seal(share))) else old(shares)
    {
      if partyId.Some? && partyId.value != PARTY_C {
        return Some(NOT_PARTY_C);
      }
      err := AssertInsertAllowed(Existing(shares, w));
      if err.Some? {
        return;
      }
      if |share| < MIN_SHARE_BYTES {
        return Some(PAYLOAD_TOO_SHORT);
      }
      shares := shares[w := ShareC(user, publicKey, Some(seal(share)), SHARE_ACTIVE)];
    }

    method RetireShare(w: WalletId) returns (err: Option<ShareError>)
      modifies this
      ensures err.None? <==> w in old(shares)
      ensures shares == Apply(old(shares), DoRetire(w))
    {
      if w !in shares {
        return Some(NOT_FOUND);
      }
      err := None;
      if shares[w].status != SHARE_RETIRED {
        shares := shares[w := shares[w].(status := SHARE_RETIRED, sealed := None)];
      }
    }
  }
}
