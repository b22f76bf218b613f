/** Rotation of the short-lived ServiceAccount token of a spoke (internal/cluster/token.go).
    Instants and durations are nanoseconds; the clock and the minter are parameters of each call. */
module Token {

  type Time = int

  /** token is empty before the first mint. */
  datatype Held = Held(token: string, issuedAt: Time, expiresAt: Time)

  const NOTHING := Held("", 0, 0)

  datatype Mint = MintFails | Minted(token: string, expiresAt: Time)

  /** Which credential authenticated a mint, if one was attempted. */
  datatype Credential = NotMinting | OwnToken | Bootstrap | NoCredential

  /** One call: the clock is read when checking and again when refreshing. */
  datatype Call = Call(checkedAt: Time, refreshedAt: Time, mint: Mint)

  datatype Settings = Settings(fraction: real, hasBootstrap: bool)

  function Truncate(x: real): int { if x < 0.0 then -((-x).Floor) else x.Floor }

  /** Issuance plus the refresh fraction of the lifetime. */
  function Deadline(h: Held, fraction: real): Time {
    h.issuedAt + Truncate((h.expiresAt - h.issuedAt) as real * fraction)
  }

  predicate NeedsRefresh(h: Held, fraction: real, now: Time) {
    h.token == "" || now >= Deadline(h, fraction)
  }

  function CredentialFor(h: Held, hasBootstrap: bool, now: Time): Credential {
    if h.token != "" && now < h.expiresAt then OwnToken
    else if hasBootstrap then Bootstrap
    else NoCredential
  }

  /** The token held after a call, and the credential the call used. */
  function AfterCall(h: Held, st: Settings, c: Call): (Held, Credential) {
    if !NeedsRefresh(h, st.fraction, c.checkedAt) then (h, NotMinting)
    else
      var used := CredentialFor(h, st.hasBootstrap, c.refreshedAt);
      if used.NoCredential? || c.mint.MintFails? then (h, used)
      else (Held(c.mint.token, c.refreshedAt, c.mint.expiresAt), used)
  }

  class Rotator {
    const settings: Settings
    var token: string
    var issuedAt: Time
    var expiresAt: Time

    function Holding(): Held
      reads this
    {
      Held(token, issuedAt, expiresAt)
    }

    constructor (settings: Settings)
      ensures this.settings == settings && Holding() == NOTHING
    {
      this.settings := settings;
      token, issuedAt, expiresAt := "", 0, 0;
    }

    /** Mints a new token; ok is false when no credential is left or the mint fails. */
    method RefreshLocked(now: Time, mint: Mint) returns (ok: bool, used: Credential)
      modifies this
      ensures used == CredentialFor(old(Holding()), settings.hasBootstrap, now)
      ensures ok <==> !used.NoCredential? && mint.Minted?
      ensures Holding() == if ok then Held(mint.token, now, mint.expiresAt) else old(Holding())
    {
      if token != "" && now < expiresAt {
        used := OwnToken;
      } else if settings.hasBootstrap {
        used := Bootstrap;
      } else {
        return false, NoCredential;
      }
      if mint.MintFails? {
        return false, used;
      }
      token, issuedAt, expiresAt := mint.token, now, mint.expiresAt;
      ok := true;
    }

    /** The bearer token handed out, or None on an error. A call mints exactly when nothing is held or the refresh
        fraction of the lifetime is over; a config returned without minting carries a token that is unexpired when it
        is checked. */
    method Config(c: Call) returns (ok: bool, bearer: string, used: Credential)
      modifies this
      ensures (Holding(), used) == AfterCall(old(Holding()), settings, c)
      ensures ok ==> bearer == token
      ensures ok <==> used.NotMinting? || (!used.NoCredential? && c.mint.Minted?)
      ensures !used.NotMinting? <==> old(token) == "" || FractionOver(old(Holding()), settings.fraction, c.checkedAt)
      ensures used.NotMinting? && 0.0 <= settings.fraction <= 1.0 && old(issuedAt) <= old(expiresAt)
              ==> bearer != "" && c.checkedAt < expiresAt
    {
      ok, bearer, used := true, "", NotMinting;
      RefreshIff(Holding(), settings.fraction, c.checkedAt);
      if NeedsRefresh(Holding(), settings.fraction, c.checkedAt) {
        ok, used := RefreshLocked(c.refreshedAt, c.mint);
        if !ok {
          return;
        }
      } else if 0.0 <= settings.fraction <= 1.0 && issuedAt <= expiresAt {
        DeadlineWithinLifetime(Holding(), settings.fraction);
      }
      bearer := token;
    }
  }

  // ---- Runs ---------------------------------------------------------------------------

  lemma {:induction false} ProductBound(x: real, f: real)
    requires 0.0 <= x && 0.0 <= f <= 1.0
    ensures 0.0 <= x * f <= x
  {}

  /** The refresh fraction of the lifetime is over, to the nanosecond; a lifetime below zero, or a fraction, counts
      towards zero. */
  ghost predicate FractionOver(h: Held, fraction: real, now: Time) {
    var part := (h.expiresAt - h.issuedAt) as real * fraction;
    if part >= 0.0 then (now + 1 - h.issuedAt) as real > part else (now - h.issuedAt) as real >= part
  }

  lemma {:induction false} TruncateBounds(x: real)
    ensures if x >= 0.0 then Truncate(x) as real <= x < (Truncate(x) + 1) as real
            else (Truncate(x) - 1) as real < x <= Truncate(x) as real
  {}

  /** A token is refreshed exactly when there is none or the refresh fraction of its lifetime is over. */
  lemma {:induction false} RefreshIff(h: Held, fraction: real, now: Time)
    ensures NeedsRefresh(h, fraction, now) <==> h.token == "" || FractionOver(h, fraction, now)
  {
    TruncateBounds((h.expiresAt - h.issuedAt) as real * fraction);
  }

  lemma {:induction false} DeadlineAt(h: Held, part: real)
    requires 0.0 <= part <= (h.expiresAt - h.issuedAt) as real
    ensures var d := h.issuedAt + Truncate(part);
            (d - h.issuedAt) as real <= part < (d + 1 - h.issuedAt) as real && h.issuedAt <= d <= h.expiresAt
  {}

  /** With a fraction between 0 and 1 the refresh deadline is the last instant at which no more than that fraction of
      the lifetime has passed, and so never falls outside the lifetime. */
  lemma {:induction false} DeadlineWithinLifetime(h: Held, fraction: real)
    requires 0.0 <= fraction <= 1.0 && h.issuedAt <= h.expiresAt
    ensures var part := (h.expiresAt - h.issuedAt) as real * fraction;
            (Deadline(h, fraction) - h.issuedAt) as real <= part < (Deadline(h, fraction) + 1 - h.issuedAt) as real
    ensures h.issuedAt <= Deadline(h, fraction) <= h.expiresAt
  {
    var lifetime := (h.expiresAt - h.issuedAt) as real;
    ProductBound(lifetime, fraction);
    DeadlineAt(h, lifetime * fraction);
  }

  function HeldAfter(calls: seq<Call>, st: Settings): Held {
    if calls == [] then NOTHING
    else AfterCall(HeldAfter(calls[..|calls| - 1], st), st, calls[|calls| - 1]).0
  }

  /** The credential the i-th call uses. */
  function UsedAt(calls: seq<Call>, st: Settings, i: nat): Credential
    requires i < |calls|
  {
    AfterCall(HeldAfter(calls[..i], st), st, calls[i]).1
  }

  /** Every mint yields a non-empty token that is not born expired. */
  ghost predicate MintsSucceed(calls: seq<Call>) {
    forall i :: 0 <= i < |calls| ==>
      calls[i].mint.Minted? && calls[i].mint.token != "" && calls[i].mint.expiresAt > calls[i].refreshedAt
  }

  /** The i-th call refreshes, whether or not its mint succeeds. */
  ghost predicate MintsAt(calls: seq<Call>, st: Settings, i: nat)
    requires i < |calls|
  {
    !UsedAt(calls, st, i).NotMinting?
  }

  /** Over every run: the j-th call mints exactly when no token is held or the refresh fraction of its lifetime is
      over when the call checks. */
  lemma {:induction false} MintsIff(calls: seq<Call>, st: Settings, j: nat)
    requires j < |calls|
    ensures var h := HeldAfter(calls[..j], st);
            MintsAt(calls, st, j) <==> h.token == "" || FractionOver(h, st.fraction, calls[j].checkedAt)
  {
    RefreshIff(HeldAfter(calls[..j], st), st.fraction, calls[j].checkedAt);
  }

  /** With a sound lifetime and fraction: exactly when more than the fraction of the lifetime has passed by the next
      nanosecond. */
  lemma {:induction false} MintsOnceTheFractionIsOver(calls: seq<Call>, st: Settings, j: nat)
    requires j < |calls| && HeldAfter(calls[..j], st).token != "" && 0.0 <= st.fraction <= 1.0
    requires HeldAfter(calls[..j], st).issuedAt <= HeldAfter(calls[..j], st).expiresAt
    ensures var h := HeldAfter(calls[..j], st);
            MintsAt(calls, st, j)
            <==> (calls[j].checkedAt + 1 - h.issuedAt) as real > (h.expiresAt - h.issuedAt) as real * st.fraction
  {
    var h := HeldAfter(calls[..j], st);
    MintsIff(calls, st, j);
    ProductBound((h.expiresAt - h.issuedAt) as real, st.fraction);
  }

  /** Some call between i and j checked after the refresh fraction of the lifetime of h and refreshed before its
      expiry. */
  ghost predicate WindowHit(calls: seq<Call>, st: Settings, h: Held, i: nat, j: nat)
    requires j <= |calls|
  {
    exists k :: i < k < j && FractionOver(h, st.fraction, calls[k].checkedAt) && calls[k].refreshedAt < h.expiresAt
  }

  /** Before a call reaches the expiry of a token, its refresh window was hit. */
  ghost predicate WindowsAreHit(calls: seq<Call>, st: Settings) {
    forall i, j :: 0 <= i < j < |calls| && MintsAt(calls, st, i) ==>
      var h := HeldAfter(calls[..i + 1], st);
      calls[j].refreshedAt >= h.expiresAt ==> WindowHit(calls, st, h, i, j)
  }

  /** A token in hand was minted by some earlier call, and no call after that one minted. */
  lemma {:induction false} HeldIsLastMint(calls: seq<Call>, st: Settings, j: nat) returns (i: nat)
    requires MintsSucceed(calls) && st.hasBootstrap && 0 < j <= |calls|
    ensures i < j && MintsAt(calls, st, i)
    ensures HeldAfter(calls[..j], st) == HeldAfter(calls[..i + 1], st)
            == Held(calls[i].mint.token, calls[i].refreshedAt, calls[i].mint.expiresAt)
    ensures forall k :: i < k < j ==> !MintsAt(calls, st, k) && HeldAfter(calls[..k], st) == HeldAfter(calls[..j], st)
  {
    var last := calls[j - 1];
    assert calls[..j][..j - 1] == calls[..j - 1];
    var h := HeldAfter(calls[..j - 1], st);
    if NeedsRefresh(h, st.fraction, last.checkedAt) {
      i := j - 1;
    } else {
      assert j - 1 > 0;
      i := HeldIsLastMint(calls, st, j - 1);
      assert HeldAfter(calls[..j], st) == h;
    }
  }

  /** No mint yields a token that is already expired; mints may fail, and tokens may be empty. */
  ghost predicate NoneBornExpired(calls: seq<Call>) {
    forall i :: 0 <= i < |calls| && calls[i].mint.Minted? ==> calls[i].refreshedAt <= calls[i].mint.expiresAt
  }

  lemma {:induction false} HeldLifetime(calls: seq<Call>, st: Settings)
    requires NoneBornExpired(calls)
    ensures HeldAfter(calls, st).issuedAt <= HeldAfter(calls, st).expiresAt
  {
    if calls != [] {
      HeldLifetime(calls[..|calls| - 1], st);
    }
  }

  /** Over every run, with or without a bootstrap credential and whatever mints fail: a config returned without
      minting carries a token that is valid when it is checked. */
  lemma {:induction false} UnmintedTokenIsUnexpired(calls: seq<Call>, st: Settings, j: nat)
    requires 0.0 <= st.fraction <= 1.0 && NoneBornExpired(calls) && j < |calls|
    requires UsedAt(calls, st, j).NotMinting?
    ensures var h := HeldAfter(calls[..j], st); h.token != "" && calls[j].checkedAt < h.expiresAt
  {
    HeldLifetime(calls[..j], st);
    DeadlineWithinLifetime(HeldAfter(calls[..j], st), st.fraction);
  }

  /** The i-th call replaced the token. */
  ghost predicate ReplacesAt(calls: seq<Call>, st: Settings, i: nat)
    requires i < |calls|
  {
    (UsedAt(calls, st, i).OwnToken? || UsedAt(calls, st, i).Bootstrap?) && calls[i].mint.Minted?
  }

  ghost predicate NoneReplaces(calls: seq<Call>, st: Settings, from: int, to: nat)
    requires -1 <= from && to <= |calls|
  {
    forall k :: from < k < to ==> !ReplacesAt(calls, st, k)
  }

  /** The i-th call minted the token and no call since then did. */
  ghost predicate LastReplacement(calls: seq<Call>, st: Settings, i: nat, j: nat)
    requires i < j <= |calls|
  {
    ReplacesAt(calls, st, i) && NoneReplaces(calls, st, i, j)
  }

  lemma {:induction false} HeldStays(calls: seq<Call>, st: Settings, j: nat)
    requires j < |calls|
    ensures HeldAfter(calls[..j + 1], st)
            == if ReplacesAt(calls, st, j) then Held(calls[j].mint.token, calls[j].refreshedAt, calls[j].mint.expiresAt)
               else HeldAfter(calls[..j], st)
  {
    assert calls[..j + 1][..j] == calls[..j];
  }

  /** What is held is the token of the last call that replaced it. */
  lemma {:induction false} HeldIsLastReplacement(calls: seq<Call>, st: Settings, i: nat, j: nat)
    requires i < j <= |calls| && LastReplacement(calls, st, i, j)
    ensures HeldAfter(calls[..j], st) == Held(calls[i].mint.token, calls[i].refreshedAt, calls[i].mint.expiresAt)
  {
    HeldStays(calls, st, j - 1);
    if i < j - 1 {
      HeldIsLastReplacement(calls, st, i, j - 1);
    }
  }

  lemma {:induction false} NothingHeldBefore(calls: seq<Call>, st: Settings, j: nat)
    requires j <= |calls| && NoneReplaces(calls, st, -1, j)
    ensures HeldAfter(calls[..j], st) == NOTHING
  {
    if j > 0 {
      HeldStays(calls, st, j - 1);
      NothingHeldBefore(calls, st, j - 1);
    } else {
      assert calls[..0] == [];
    }
  }

  /** Over every run, the bootstrap credential is used only when no call minted before, or the token minted last is
      empty or expired by then. */
  lemma {:induction false} BootstrapOnlyWithoutValidToken(calls: seq<Call>, st: Settings, j: nat)
    requires j < |calls| && UsedAt(calls, st, j).Bootstrap?
    ensures forall i :: 0 <= i < j && LastReplacement(calls, st, i, j) ==>
              calls[i].mint.token == "" || calls[i].mint.expiresAt <= calls[j].refreshedAt
    ensures st.hasBootstrap
  {
    forall i | 0 <= i < j && LastReplacement(calls, st, i, j)
      ensures calls[i].mint.token == "" || calls[i].mint.expiresAt <= calls[j].refreshedAt
    {
      HeldIsLastReplacement(calls, st, i, j);
    }
  }

  /** Conversely, a refresh with no earlier mint, or with one that is empty or expired, does use it when there is
      one. */
  lemma {:induction false} BootstrapWheneverNeeded(calls: seq<Call>, st: Settings, j: nat)
    requires j < |calls| && st.hasBootstrap && MintsAt(calls, st, j)
    requires NoneReplaces(calls, st, -1, j)
             || exists i :: 0 <= i < j && LastReplacement(calls, st, i, j)
                            && (calls[i].mint.token == "" || calls[i].mint.expiresAt <= calls[j].refreshedAt)
    ensures UsedAt(calls, st, j).Bootstrap?
  {
    if NoneReplaces(calls, st, -1, j) {
      NothingHeldBefore(calls, st, j);
    } else {
      var i :| 0 <= i < j && LastReplacement(calls, st, i, j)
        && (calls[i].mint.token == "" || calls[i].mint.expiresAt <= calls[j].refreshedAt);
      HeldIsLastReplacement(calls, st, i, j);
    }
  }

  /** A window that was hit cannot lie between the last mint and now. */
  lemma {:induction false} NoMintMeansNoHit(calls: seq<Call>, st: Settings, i: nat, j: nat)
    requires j <= |calls|
    requires forall k :: i < k < j ==> !MintsAt(calls, st, k) && HeldAfter(calls[..k], st) == HeldAfter(calls[..j], st)
    ensures !WindowHit(calls, st, HeldAfter(calls[..j], st), i, j)
  {
    var h := HeldAfter(calls[..j], st);
    forall k | i < k < j ensures !FractionOver(h, st.fraction, calls[k].checkedAt) {
      MintsIff(calls, st, k);
    }
  }

  lemma {:induction false} LaterCallsUseOwnToken(calls: seq<Call>, st: Settings, j: nat)
    requires st.hasBootstrap && MintsSucceed(calls) && WindowsAreHit(calls, st)
    requires 0 < j < |calls|
    ensures !UsedAt(calls, st, j).Bootstrap?
  {
    var i := HeldIsLastMint(calls, st, j);
    NoMintMeansNoHit(calls, st, i, j);
    assert calls[j].refreshedAt < HeldAfter(calls[..j], st).expiresAt;
  }

  /** Over every run with successful mints and a check in every refresh window, the bootstrap
      credential is used by the first call and never again. */
  lemma {:induction false} BootstrapUsedExactlyOnce(calls: seq<Call>, st: Settings)
    requires st.hasBootstrap && calls != [] && MintsSucceed(calls) && WindowsAreHit(calls, st)
    ensures forall j :: 0 <= j < |calls| ==> (UsedAt(calls, st, j).Bootstrap? <==> j == 0)
  {
    forall j | 0 <= j < |calls| ensures UsedAt(calls, st, j).Bootstrap? <==> j == 0 {
      if j == 0 {
        assert calls[..0] == [];
      } else {
        LaterCallsUseOwnToken(calls, st, j);
      }
    }
  }
}
