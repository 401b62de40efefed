/** The passwordless sign-in edge function: a per-email rate limiter held in
    process memory, six-digit one-time codes with a five-minute lifetime, and
    verification that consumes the newest live code and then finds or creates
    the user's profile. The clock, `Math.random`, the auth service's replies and
    the outcome of the database insert and of the email delivery are
    parameters. */
module OtpAuth {
  import opened Opt
  import opened Http
  import opened Tables

  /** A rate-limit window: an entry older than this is reset. */
  const WindowMs := 30000
  /** Sends allowed per email within one window. */
  const MaxAttempts := 3
  /** A code expires five minutes after it is issued. */
  const OtpLifetimeMs := 5 * 60 * 1000
  /** The earliest resend the reply advertises. */
  const ResendDelayMs := 30000

  // ---------------------------------------------------------------- rate limit

  /** `{ count, lastAttempt }` in the rate-limit map. */
  datatype LimitEntry = LimitEntry(count: int, lastAttempt: int)

  /** What one call of the limiter answers, and the entry it leaves stored. */
  datatype RateDecision = RateDecision(limited: bool, entry: LimitEntry)

  function EntryFor(store: map<string, LimitEntry>, email: string): Option<LimitEntry> {
    if email in store then Some(store[email]) else None
  }

  /** One call of the limiter for an email whose stored entry is `current`. */
  function RateStep(current: Option<LimitEntry>, now: int): RateDecision {
    if current.None? then RateDecision(false, LimitEntry(1, now))
    else if now - current.value.lastAttempt > WindowMs then RateDecision(false, LimitEntry(1, now))
    else if current.value.count >= MaxAttempts then RateDecision(true, current.value)
    else RateDecision(false, LimitEntry(current.value.count + 1, now))
  }

  /** A stored count is always between 1 and 3. */
  predicate InRange(e: LimitEntry) {
    1 <= e.count <= MaxAttempts
  }

  /** The limiter refuses exactly when an entry exists, its last accepted
      attempt is at most 30 000 ms ago (a gap of exactly 30 000 ms is still
      inside) and it already holds three attempts. A refusal stores the entry
      unchanged, so `lastAttempt` is not refreshed; an accepted call stamps
      `now` and either resets the count to 1 or adds exactly one. */
  lemma RateStepCases(current: Option<LimitEntry>, now: int)
    requires current.Some? ==> InRange(current.value)
    ensures var d := RateStep(current, now);
      && (d.limited <==> current.Some? && now - current.value.lastAttempt <= WindowMs
                         && current.value.count >= MaxAttempts)
      && (d.limited ==> d.entry == current.value)
      && (!d.limited ==> d.entry.lastAttempt == now)
      && (!d.limited && (current.None? || now - current.value.lastAttempt > WindowMs) ==> d.entry.count == 1)
      && (!d.limited && current.Some? && now - current.value.lastAttempt <= WindowMs ==>
            d.entry.count == current.value.count + 1)
      && InRange(d.entry)
  {
  }

  /** The entry left after calls at `times`, in order. */
  function After(current: Option<LimitEntry>, times: seq<int>): Option<LimitEntry>
    decreases |times|
  {
    if times == [] then current else After(Some(RateStep(current, times[0]).entry), times[1..])
  }

  /** How many of the calls at `times` the limiter lets through. */
  function AllowedCount(current: Option<LimitEntry>, times: seq<int>): nat
    decreases |times|
  {
    if times == [] then 0
    else
      var d := RateStep(current, times[0]);
      (if d.limited then 0 else 1) + AllowedCount(Some(d.entry), times[1..])
  }

  /** Once an entry stamped inside the window exists, the window has room for
      only `3 - count` more sends. */
  lemma {:induction false} AllowedAfterStamp(e: LimitEntry, times: seq<int>, lo: int)
    requires InRange(e) && lo <= e.lastAttempt
    requires forall i :: 0 <= i < |times| ==> lo <= times[i] <= lo + WindowMs
    ensures AllowedCount(Some(e), times) <= MaxAttempts - e.count
    decreases |times|
  {
    if times != [] {
      var d := RateStep(Some(e), times[0]);
      assert times[0] - e.lastAttempt <= WindowMs;
      AllowedAfterStamp(d.entry, times[1..], lo);
    }
  }

  /** Whatever was stored before, at most three sends for one email get through
      in any span of 30 000 ms, in whatever order the calls arrive. */
  lemma {:induction false} AtMostThreePerWindow(current: Option<LimitEntry>, times: seq<int>, lo: int)
    requires current.Some? ==> InRange(current.value)
    requires forall i :: 0 <= i < |times| ==> lo <= times[i] <= lo + WindowMs
    ensures AllowedCount(current, times) <= MaxAttempts
    decreases |times|
  {
    if times != [] {
      var d := RateStep(current, times[0]);
      if d.limited {
        AtMostThreePerWindow(Some(d.entry), times[1..], lo);
      } else {
        AllowedAfterStamp(d.entry, times[1..], lo);
      }
    }
  }

  /** Replaying one more call adds its own verdict to the count. */
  lemma {:induction false} AllowedCountSnoc(current: Option<LimitEntry>, times: seq<int>, t: int)
    ensures AllowedCount(current, times + [t]) ==
      AllowedCount(current, times) + (if RateStep(After(current, times), t).limited then 0 else 1)
    decreases |times|
  {
    if times != [] {
      assert (times + [t])[1..] == times[1..] + [t];
      AllowedCountSnoc(Some(RateStep(current, times[0]).entry), times[1..], t);
    }
  }

  /** After three accepted sends in a 30 000 ms span, a fourth send in the same
      span is refused. */
  lemma FourthSendInWindowLimited(current: Option<LimitEntry>, times: seq<int>, t: int, lo: int)
    requires current.Some? ==> InRange(current.value)
    requires forall i :: 0 <= i < |times| ==> lo <= times[i] <= lo + WindowMs
    requires lo <= t <= lo + WindowMs
    requires AllowedCount(current, times) == MaxAttempts
    ensures RateStep(After(current, times), t).limited
  {
    AllowedCountSnoc(current, times, t);
    AtMostThreePerWindow(current, times + [t], lo);
  }

  // ---------------------------------------------------------------- codes

  function DigitChar(d: int): char
    requires 0 <= d < 10
  {
    (('0' as int) + d) as char
  }

  predicate IsDigit(c: char) {
    '0' <= c <= '9'
  }

  /** `n.toString()` for a non-negative integer. */
  function DecimalString(n: nat): (s: string)
    ensures |s| >= 1 && forall i :: 0 <= i < |s| ==> IsDigit(s[i])
  {
    if n < 10 then [DigitChar(n)] else DecimalString(n / 10) + [DigitChar(n % 10)]
  }

  /** The number a string of decimal digits denotes. */
  function DecimalValue(s: string): nat
    requires forall i :: 0 <= i < |s| ==> IsDigit(s[i])
  {
    if s == [] then 0
    else
      assert IsDigit(s[|s| - 1]);
      DecimalValue(s[..|s| - 1]) * 10 + (s[|s| - 1] as int - '0' as int)
  }

  /** Reading a printed number back gives the number. */
  lemma {:induction false} DecimalRoundTrip(n: nat)
    ensures DecimalValue(DecimalString(n)) == n
  {
    if n >= 10 {
      DecimalRoundTrip(n / 10);
      var s := DecimalString(n);
      assert s[..|s| - 1] == DecimalString(n / 10);
    }
  }

  function Pow10(k: nat): nat {
    if k == 0 then 1 else 10 * Pow10(k - 1)
  }

  /** A number with k digits prints as k characters. */
  lemma {:induction false} DecimalLength(n: nat, k: nat)
    requires 1 <= k && (k == 1 || Pow10(k - 1) <= n) && n < Pow10(k)
    ensures |DecimalString(n)| == k
  {
    if k > 1 {
      if k == 2 {
        assert n / 10 < 10;
      } else {
        DecimalLength(n / 10, k - 1);
      }
    } else {
      assert n < 10;
    }
  }

  /** `generateOTP()` with `Math.random()` returning `draw`:
      `Math.floor(100000 + draw * 900000).toString()`. */
  function GenerateOtp(draw: real): (code: string)
    requires 0.0 <= draw < 1.0
    ensures |code| == 6 && forall i :: 0 <= i < |code| ==> IsDigit(code[i])
    ensures 100000 <= DecimalValue(code) <= 999999
  {
    var n := (100000.0 + draw * 900000.0).Floor;
    assert 100000 <= n <= 999999;
    assert Pow10(2) == 100 && Pow10(4) == 10000 && Pow10(6) == 1000000;
    DecimalRoundTrip(n);
    DecimalLength(n, 6);
    DecimalString(n)
  }

  // ---------------------------------------------------------------- stored codes

  /** A row of the `otps` table. */
  datatype Otp = Otp(email: string, code: string, createdAt: int, expiresAt: int, isUsed: bool)

  /** A row of the `profiles` table, as far as sign-in reads and writes it. */
  datatype Profile = Profile(userId: string, email: string, fullName: string, role: string)

  /** The verify query's filter: same email and code, unused, `expires_at >= now`. */
  predicate IsCandidate(o: Otp, email: string, code: string, now: int) {
    o.email == email && o.code == code && !o.isUsed && o.expiresAt >= now
  }

  /** The verify query: among the candidates, the one with the latest
      `created_at` (`order created_at desc, limit 1`); of rows created at the
      same instant the later-inserted one is taken. */
  function SelectNewest(otps: seq<Otp>, email: string, code: string, now: int): (r: Option<nat>)
    ensures r.None? <==> forall i :: 0 <= i < |otps| ==> !IsCandidate(otps[i], email, code, now)
    ensures r.Some? ==> r.value < |otps| && IsCandidate(otps[r.value], email, code, now)
    ensures r.Some? ==> forall j :: 0 <= j < |otps| && IsCandidate(otps[j], email, code, now) ==>
                           otps[j].createdAt <= otps[r.value].createdAt
    decreases |otps|
  {
    if otps == [] then None
    else
      var last := |otps| - 1;
      var rest := SelectNewest(otps[..last], email, code, now);
      if IsCandidate(otps[last], email, code, now)
         && (rest.None? || otps[rest.value].createdAt <= otps[last].createdAt)
      then Some(last)
      else rest
  }

  /** How many stored rows would still pass the verify query. */
  function CountCandidates(otps: seq<Otp>, email: string, code: string, now: int): (n: nat)
    ensures n == 0 <==> forall i :: 0 <= i < |otps| ==> !IsCandidate(otps[i], email, code, now)
    ensures n <= |otps|
    decreases |otps|
  {
    if otps == [] then 0
    else
      var last := |otps| - 1;
      CountCandidates(otps[..last], email, code, now) + (if IsCandidate(otps[last], email, code, now) then 1 else 0)
  }

  /** `update({ is_used: true }).eq('id', otp.id)`. */
  function MarkUsed(otps: seq<Otp>, i: nat): seq<Otp>
    requires i < |otps|
  {
    otps[i := otps[i].(isUsed := true)]
  }

  /** Consuming a live code removes exactly one candidate: every successful
      verification uses up one issued code. */
  lemma {:induction false} MarkUsedConsumesOne(otps: seq<Otp>, i: nat, email: string, code: string, now: int)
    requires i < |otps| && IsCandidate(otps[i], email, code, now)
    ensures CountCandidates(MarkUsed(otps, i), email, code, now) == CountCandidates(otps, email, code, now) - 1
    decreases |otps|
  {
    var last := |otps| - 1;
    var m := MarkUsed(otps, i);
    var before := CountCandidates(otps[..last], email, code, now);
    var after := CountCandidates(m[..last], email, code, now);
    assert CountCandidates(otps, email, code, now)
        == before + if IsCandidate(otps[last], email, code, now) then 1 else 0;
    assert CountCandidates(m, email, code, now)
        == after + if IsCandidate(m[last], email, code, now) then 1 else 0;
    if i == last {
      assert m[..last] == otps[..last];
    } else {
      assert m[..last] == MarkUsed(otps[..last], i);
      MarkUsedConsumesOne(otps[..last], i, email, code, now);
    }
  }

  /** Time only shrinks the set of live codes: a code expired at `now` stays
      expired later, and nothing else in the query depends on the clock. */
  lemma {:induction false} CountAntitone(otps: seq<Otp>, email: string, code: string, now: int, later: int)
    requires now <= later
    ensures CountCandidates(otps, email, code, later) <= CountCandidates(otps, email, code, now)
    decreases |otps|
  {
    if otps != [] {
      CountAntitone(otps[..|otps| - 1], email, code, now, later);
    }
  }

  /** A code that was the only live match cannot be verified a second time,
      however much later the second attempt comes. */
  lemma SecondVerifyFails(otps: seq<Otp>, email: string, code: string, now: int, later: int)
    requires CountCandidates(otps, email, code, now) == 1
    requires SelectNewest(otps, email, code, now).Some?
    requires now <= later
    ensures SelectNewest(MarkUsed(otps, SelectNewest(otps, email, code, now).value), email, code, later).None?
  {
    var used := MarkUsed(otps, SelectNewest(otps, email, code, now).value);
    MarkUsedConsumesOne(otps, SelectNewest(otps, email, code, now).value, email, code, now);
    CountAntitone(used, email, code, now, later);
  }

  /** A code issued at `issuedAt` is accepted at any `now` up to its expiry. */
  lemma IssuedCodeIsAccepted(otps: seq<Otp>, email: string, code: string, issuedAt: int, now: int)
    requires now <= issuedAt + OtpLifetimeMs
    ensures SelectNewest(otps + [Otp(email, code, issuedAt, issuedAt + OtpLifetimeMs, false)], email, code, now).Some?
  {
    var s := otps + [Otp(email, code, issuedAt, issuedAt + OtpLifetimeMs, false)];
    assert IsCandidate(s[|otps|], email, code, now);
  }

  /** `email.split('@')[0]`: the text before the first '@'. */
  function LocalPart(email: string): (name: string)
    ensures '@' !in name && |name| <= |email| && name == email[..|name|]
    ensures |name| < |email| ==> email[|name|] == '@'
  {
    if email == [] || email[0] == '@' then [] else [email[0]] + LocalPart(email[1..])
  }

  /** The send handler's shape test: non-empty and containing '@'. */
  predicate ValidEmail(email: string) {
    email != "" && '@' in email
  }

  function HasEmail(email: string): Profile -> bool {
    (p: Profile) => p.email == email
  }

  /** The body of a successful send. */
  datatype SendReceipt = SendReceipt(message: string, canResendAt: int)

  /** The body of a successful verification. */
  datatype SignIn = SignIn(isNewUser: bool, userId: string, email: string, message: string)

  /** The edge function's state: the in-memory rate-limit map and the two
      tables it reads and writes. */
  class OtpService {
    var rateLimitStore: map<string, LimitEntry>
    var otps: seq<Otp>
    var profiles: seq<Profile>

    ghost predicate Valid()
      reads this
    {
      forall e :: e in rateLimitStore ==> InRange(rateLimitStore[e])
    }

    constructor ()
      ensures Valid() && rateLimitStore == map[] && otps == [] && profiles == []
    {
      rateLimitStore := map[];
      otps := [];
      profiles := [];
    }

    /** `isRateLimited(email)`: consult and update the email's entry; no other
        email's entry changes. */
    method IsRateLimited(email: string, now: int) returns (limited: bool)
      requires Valid()
      modifies this`rateLimitStore
      ensures Valid()
      ensures var d := RateStep(EntryFor(old(rateLimitStore), email), now);
        limited == d.limited && rateLimitStore == old(rateLimitStore)[email := d.entry]
      ensures forall other :: other != email ==> EntryFor(rateLimitStore, other) == EntryFor(old(rateLimitStore), other)
    {
      if email !in rateLimitStore {
        rateLimitStore := rateLimitStore[email := LimitEntry(1, now)];
        return false;
      }
      var userLimit := rateLimitStore[email];
      if now - userLimit.lastAttempt > WindowMs {
        rateLimitStore := rateLimitStore[email := LimitEntry(1, now)];
        return false;
      }
      if userLimit.count >= MaxAttempts {
        assert rateLimitStore == rateLimitStore[email := userLimit];
        return true;
      }
      rateLimitStore := rateLimitStore[email := LimitEntry(userLimit.count + 1, now)];
      return false;
    }

    /** POST `/send-otp`. The shape check comes before the limiter; a code is
        stored only when the limiter lets the call through and the insert
        succeeds; a failed delivery is reported although the stored code stays
        valid. */
    method SendOtp(email: string, now: int, draw: real, insertOk: bool, deliveryOk: bool)
      returns (reply: Reply<SendReceipt>)
      requires Valid() && 0.0 <= draw < 1.0
      modifies this`rateLimitStore, this`otps
      ensures Valid()
      ensures !ValidEmail(email) ==>
        reply == Error(400, "Valid email is required")
        && rateLimitStore == old(rateLimitStore) && otps == old(otps)
      ensures ValidEmail(email) ==>
        var d := RateStep(EntryFor(old(rateLimitStore), email), now);
        && rateLimitStore == old(rateLimitStore)[email := d.entry]
        && (d.limited ==>
              reply == Error(429, "Too many attempts. Please wait 30 seconds before requesting another code.")
              && otps == old(otps))
        && (!d.limited && !insertOk ==> reply == Error(500, "Failed to generate OTP") && otps == old(otps))
        && (!d.limited && insertOk ==>
              otps == old(otps) + [Otp(email, GenerateOtp(draw), now, now + OtpLifetimeMs, false)]
              && reply == if deliveryOk then Ok(200, SendReceipt("OTP sent successfully", now + ResendDelayMs))
                          else Error(500, "Failed to send OTP email"))
    {
      if !ValidEmail(email) {
        return Error(400, "Valid email is required");
      }
      var limited := IsRateLimited(email, now);
      if limited {
        return Error(429, "Too many attempts. Please wait 30 seconds before requesting another code.");
      }
      var code := GenerateOtp(draw);
      var expiresAt := now + OtpLifetimeMs;
      if !insertOk {
        return Error(500, "Failed to generate OTP");
      }
      otps := otps + [Otp(email, code, now, expiresAt, false)];
      if !deliveryOk {
        return Error(500, "Failed to send OTP email");
      }
      reply := Ok(200, SendReceipt("OTP sent successfully", now + ResendDelayMs));
    }

    /** POST `/verify-otp`. The newest live matching code is marked used before
        the user is resolved, so it stays consumed even when account creation
        or the session fails afterwards. */
    method VerifyOtp(email: string, code: string, now: int, newUserId: Option<string>,
                     profileInsertOk: bool, sessionOk: bool)
      returns (reply: Reply<SignIn>)
      modifies this`otps, this`profiles
      ensures email == "" || code == "" ==>
        reply == Error(400, "Email and code are required") && otps == old(otps) && profiles == old(profiles)
      ensures email != "" && code != "" && SelectNewest(old(otps), email, code, now).None? ==>
        reply == Error(400, "Invalid or expired OTP") && otps == old(otps) && profiles == old(profiles)
      ensures email != "" && code != "" && SelectNewest(old(otps), email, code, now).Some? ==>
        var i := SelectNewest(old(otps), email, code, now).value;
        var found := Single(old(profiles), HasEmail(email));
        && otps == MarkUsed(old(otps), i)
        && (found.One? ==>
              profiles == old(profiles)
              && reply == if sessionOk then Ok(200, SignIn(false, old(profiles)[found.index].userId, email, "Login successful!"))
                          else Error(500, "Failed to create session"))
        && (!found.One? && newUserId.None? ==>
              profiles == old(profiles) && reply == Error(500, "Failed to create user account"))
        && (!found.One? && newUserId.Some? && !profileInsertOk ==>
              profiles == old(profiles) && reply == Error(500, "Failed to create user profile"))
        && (!found.One? && newUserId.Some? && profileInsertOk ==>
              profiles == old(profiles) + [Profile(newUserId.value, email, LocalPart(email), "passenger")]
              && reply == if sessionOk then Ok(200, SignIn(true, newUserId.value, email, "Account created successfully!"))
                          else Error(500, "Failed to create session"))
    {
      if email == "" || code == "" {
        return Error(400, "Email and code are required");
      }
      var selected := SelectNewest(otps, email, code, now);
      if selected.None? {
        return Error(400, "Invalid or expired OTP");
      }
      otps := MarkUsed(otps, selected.value);
      var existing := Single(profiles, HasEmail(email));
      var userId: string;
      var isNewUser := false;
      if existing.One? {
        userId := profiles[existing.index].userId;
      } else {
        if newUserId.None? {
          return Error(500, "Failed to create user account");
        }
        userId := newUserId.value;
        isNewUser := true;
        if !profileInsertOk {
          return Error(500, "Failed to create user profile");
        }
        profiles := profiles + [Profile(userId, email, LocalPart(email), "passenger")];
      }
      if !sessionOk {
        return Error(500, "Failed to create session");
      }
      reply := Ok(200, SignIn(isNewUser, userId, email,
                              if isNewUser then "Account created successfully!" else "Login successful!"));
    }
  }
}
