/** The token bucket that limits provider calls, over real numbers; times are nanoseconds and the clock may step back. */
module Bucket {
  import opened Common

  datatype Bucket = Bucket(rate: real, burst: real, tokens: real, last: Time)

  function Seconds(ns: int): real {
    ns as real / 1_000_000_000.0
  }

  predicate BucketOk(b: Bucket) {
    b.rate > 0.0 && b.burst >= 1.0 && 0.0 <= b.tokens <= b.burst
  }

  function NewBucket(rate: real, burst: real, now: Time): Bucket {
    Bucket(rate, burst, burst, now)
  }

  function Refilled(b: Bucket, now: Time): Bucket {
    if now <= b.last then b
    else
      var tokens := b.tokens + Seconds(now - b.last) * b.rate;
      b.(tokens := if tokens > b.burst then b.burst else tokens, last := now)
  }

  predicate Allowed(b: Bucket, now: Time) {
    Refilled(b, now).tokens >= 1.0
  }

  function Asked(b: Bucket, now: Time): Bucket {
    var r := Refilled(b, now);
    if r.tokens < 1.0 then r else r.(tokens := r.tokens - 1.0)
  }

  /** What the bucket can still grant: tokens in stock, plus what the passing of time added since. */
  lemma AskKeepsBudget(b: Bucket, now: Time)
    requires BucketOk(b)
    ensures var b' := Asked(b, now);
            && BucketOk(b') && b'.rate == b.rate && b'.burst == b.burst && b.last <= b'.last
            && b'.tokens + (if Allowed(b, now) then 1.0 else 0.0) <= b.tokens + b.rate * Seconds(b'.last - b.last)
  {
    if now > b.last {
      assert Seconds(now - b.last) * b.rate > 0.0;
    }
  }

  /** What a rate pays for over two periods in a row. */
  lemma RateSplits(rate: real, a: Time, b: Time, c: Time)
    requires rate > 0.0 && a <= b <= c
    ensures rate * Seconds(c - a) == rate * Seconds(b - a) + rate * Seconds(c - b)
    ensures rate * Seconds(c - b) >= 0.0
  {
    var x, y := Seconds(b - a), Seconds(c - b);
    assert Seconds(c - a) == x + y;
    assert rate * (x + y) == rate * x + rate * y;
  }

  function Max0(x: real): real {
    if x < 0.0 then 0.0 else x
  }

  function Least(x: real, y: real): real {
    if x <= y then x else y
  }

  /** The stock at a time: what was left plus what the time since then paid for, up to the burst. */
  function Stock(b: Bucket, now: Time): real {
    Least(b.burst, b.tokens + b.rate * Max0(Seconds(now - b.last)))
  }

  /** A call is granted exactly when the stock holds a token; it then takes one, and time never runs backwards. */
  lemma GrantedExactly(b: Bucket, now: Time)
    requires BucketOk(b)
    ensures Allowed(b, now) <==> Stock(b, now) >= 1.0
    ensures var b' := Asked(b, now);
            && b'.tokens == Stock(b, now) - (if Stock(b, now) >= 1.0 then 1.0 else 0.0)
            && b'.last == (if now > b.last then now else b.last)
  {
    if now > b.last {
      assert b.rate * Seconds(now - b.last) == Seconds(now - b.last) * b.rate;
    }
  }

  /** The other half of the budget: no elapsed time is lost, except what a full bucket cannot hold. */
  lemma AskEarns(b: Bucket, now: Time)
    requires BucketOk(b)
    ensures var b' := Asked(b, now);
            b'.tokens + (if Allowed(b, now) then 1.0 else 0.0)
            >= Least(b.burst, b.tokens + b.rate * Seconds(b'.last - b.last))
  {
    GrantedExactly(b, now);
  }

  class TokenBucket {
    const rate: real
    const burst: real
    var tokens: real
    var last: Time

    function View(): Bucket
      reads this
    {
      Bucket(rate, burst, tokens, last)
    }

    constructor (rate: real, burst: real, now: Time)
      ensures View() == NewBucket(rate, burst, now)
    {
      this.rate, this.burst, tokens, last := rate, burst, burst, now;
    }

    method Allow(now: Time) returns (granted: bool)
      modifies this
      ensures View() == Asked(old(View()), now)
      ensures granted <==> Allowed(old(View()), now)
    {
      if now > last {
        tokens := tokens + Seconds(now - last) * rate;
        if tokens > burst {
          tokens := burst;
        }
        last := now;
      }
      if tokens < 1.0 {
        return false;
      }
      tokens := tokens - 1.0;
      return true;
    }
  }
}
