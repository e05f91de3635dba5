/** OTP start, cancel and the shared gate as the object they are (apps/api/src/wallet/emergency-recovery.service.ts). */
module EmergencyRecovery {
  import opened Types
  import opened Withdraws
  import opened AbSigning
  import opened OtpTracker
  import opened SignOrchestrator
  import LastWithdraw

  /** What a refused gate answers; None when the code was right. */
  function OtpRefusal(v: OtpTracker.Verdict): Option<ErrorCode> {
    match v
    case Passed => None
    case BadFormat => Some(OTP_FORMAT)
    case Locked(_) => Some(OTP_LOCKED)
    case NowLocked(_) => Some(OTP_LOCKED)
    case Invalid(_) => Some(OTP_INVALID)
  }

  /** Nothing but a right code goes through the gate, and a lock answers as a lock. */
  lemma OnlyARightCodePasses(v: OtpTracker.Verdict)
    ensures OtpRefusal(v).None? <==> v == Passed
    ensures OtpRefusal(v) == Some(OTP_LOCKED) <==> v.Locked? || v.NowLocked?
    ensures OtpRefusal(v) == Some(OTP_FORMAT) <==> v == BadFormat
    ensures OtpRefusal(v) == Some(OTP_INVALID) <==> v.Invalid?
  {
  }

  /** Whether start gets as far as asking for the code. */
  predicate AsksForOtp(wallets: map<WalletId, Wallet>, user: UserId, w: WalletId) {
    && w in wallets
    && wallets[w].user == user
    && wallets[w].status in {ACTIVE, RECOVERY_PENDING}
    && wallets[w].shareB.Some?
  }

  class EmergencyRecoveryService {
    const db: Database
    const otpFailures: OtpFailureTracker

    constructor (db: Database)
      ensures this.db == db && fresh(otpFailures) && otpFailures.failures == map[]
      ensures otpFailures.limits == Limits(5, 900_000) && LimitsOk(otpFailures.limits)
    {
      this.db := db;
      otpFailures := new OtpFailureTracker(Limits(MAX_FAILURES, LOCK_MS));
    }

    function Tables(): Api
      reads db
    {
      Api(db.wallets, db.rows, map[], [])
    }

    method VerifyEmergencyOtp(user: UserId, otp: string, correct: bool, now: nat) returns (v: OtpTracker.Verdict)
      modifies otpFailures
      ensures (otpFailures.failures, v) == Gate(otpFailures.limits, old(otpFailures.failures), user, now, otp, correct)
    {
      if !SixDigits(otp) {
        return BadFormat;
      }
      var left := otpFailures.AssertNotLocked(user, now);
      if left.Some? {
        return Locked(left.value);
      }
      if !correct {
        var r := otpFailures.RecordFailure(user, now);
        if r.locked {
          return NowLocked(r.lockSeconds.value);
        }
        return Invalid(r.remainingAttempts);
      }
      otpFailures.Clear(user);
      v := Passed;
    }

    /** The checks on the row; made before the code is asked for and again under the lock. */
    method CheckWallet(w: WalletId) returns (refusal: Option<ErrorCode>)
      requires w in db.wallets
      ensures refusal.None? <==> db.wallets[w].status in {ACTIVE, RECOVERY_PENDING} && db.wallets[w].shareB.Some?
      ensures refusal.Some? ==>
                refusal.value == if db.wallets[w].status == RETIRED then WALLET_RETIRED
                                 else if db.wallets[w].status == RETIRING then EMERGENCY_STATE_INVALID
                                 else SHARE_B_MISSING
    {
      var wallet := db.wallets[w];
      if wallet.status == RETIRED {
        return Some(WALLET_RETIRED);
      }
      if wallet.status == RETIRING {
        return Some(EMERGENCY_STATE_INVALID);
      }
      refusal := if wallet.shareB.None? then Some(SHARE_B_MISSING) else None;
    }

    method StartEmergencyRecovery(user: UserId, w: WalletId, otp: string, correct: bool, now: nat, l: Ledger)
      returns (r: Result<WalletStatus, ErrorCode>)
      modifies db, otpFailures
      ensures var gate := Gate(otpFailures.limits, old(otpFailures.failures), user, now, otp, correct);
              && (Tables(), r) == LastWithdraw.StartEmergencyRecovery(old(Tables()), l, user, w, OtpRefusal(gate.1))
              && otpFailures.failures == (if AsksForOtp(old(db.wallets), user, w) then gate.0 else old(otpFailures.failures))
              && (r.Ok? ==> gate.1 == Passed)
    {
      if w !in db.wallets {
        return Err(WALLET_NOT_FOUND);
      }
      if db.wallets[w].user != user {
        return Err(NOT_YOUR_WALLET);
      }
      var refusal := CheckWallet(w);
      if refusal.Some? {
        return Err(refusal.value);
      }
      var verdict := VerifyEmergencyOtp(user, otp, correct, now);
      if OtpRefusal(verdict).Some? {
        return Err(OtpRefusal(verdict).value);
      }
      r := StartUnderLock(w, l);
    }

    /** The locked transaction: the row is checked again before anything is settled or written. */
    method StartUnderLock(w: WalletId, l: Ledger) returns (r: Result<WalletStatus, ErrorCode>)
      requires w in db.wallets
      modifies db
      ensures (Tables(), r) == LastWithdraw.StartEmergencyRecovery(old(Tables()), l, old(db.wallets)[w].user, w, None)
    {
      var refusal := CheckWallet(w);
      if refusal.Some? {
        return Err(refusal.value);
      }
      var settled := SettleOpenNormalAbOrThrow(db.rows, w, l);
      if settled.Err? {
        return Err(settled.error);
      }
      db.rows := settled.value;
      if db.wallets[w].status != RECOVERY_PENDING {
        db.wallets := db.wallets[w := db.wallets[w].(status := RECOVERY_PENDING)];
      }
      assert db.wallets == old(db.wallets)[w := old(db.wallets)[w].(status := RECOVERY_PENDING)];
      r := Ok(RECOVERY_PENDING);
    }

    method CancelEmergencyRecovery(user: UserId, w: WalletId) returns (r: Result<WalletStatus, ErrorCode>)
      modifies db`wallets
      ensures (Tables(), r) == LastWithdraw.CancelEmergencyRecovery(old(Tables()), user, w)
    {
      if w !in db.wallets {
        return Err(WALLET_NOT_FOUND);
      }
      var wallet := db.wallets[w];
      if wallet.user != user {
        return Err(NOT_YOUR_WALLET);
      }
      if wallet.status == RETIRED {
        return Err(WALLET_RETIRED);
      }
      if wallet.status == ACTIVE {
        return Ok(ACTIVE);
      }
      if wallet.status == RETIRING {
        return Err(EMERGENCY_STATE_INVALID);
      }
      db.wallets := db.wallets[w := wallet.(status := ACTIVE)];
      r := Ok(ACTIVE);
    }
  }
}
