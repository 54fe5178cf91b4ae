/** internal/executor/gate.go: the in-process semaphore; one token is one task in the system. */
module Gate {
  import opened Base

  class Semaphore {
    const capacity: nat
    var tokens: nat
    /** Net slots other parties have taken whenever a caller let them have their turn. */
    ghost var others: int
    /** Waits that ran out. */
    ghost var expired: nat

    ghost predicate Valid()
      reads this
    {
      tokens <= capacity && capacity > 0
    }

    constructor (max: int)
      ensures Valid() && tokens == 0 && others == 0 && expired == 0 && capacity == Max(1, max)
    {
      capacity := if max <= 0 then 1 else max;
      tokens, others, expired := 0, 0, 0;
    }

    /** Other parties take and return slots; those of the caller they leave alone. */
    method Interleave(mine: nat)
      requires Valid() && mine <= tokens
      modifies this`tokens, this`others
      ensures Valid() && mine <= tokens
      ensures tokens - others == old(tokens - others)
    {
      var next: nat := *;
      if mine <= next <= capacity {
        others := others + next - tokens;
        tokens := next;
      }
    }

    /** Whether the timer of a waiting call fires; nothing is known about it, except that it does
        in the end when nothing else ends the wait. */
    method Timer(only: bool) returns (fired: bool)
      modifies this`expired
      ensures only ==> fired
      ensures expired == old(expired) + (if fired then 1 else 0)
    {
      fired := only;
      if * { fired := true; }
      if fired { expired := expired + 1; }
    }

    /** Without a wait the call takes a slot at once or not at all; with one it waits for a slot,
        the timer or the end of its context. When several of these have happened, the choice
        between them is open. */
    method Acquire(wait: int, ctxDone: bool) returns (ok: bool)
      requires Valid()
      modifies this`tokens, this`expired
      ensures Valid() && expired >= old(expired)
      ensures ok ==> old(tokens) < capacity && tokens == old(tokens) + 1
      ensures !ok ==> tokens == old(tokens)
      ensures !ok ==> ctxDone || (if wait <= 0 then tokens == capacity else expired > old(expired))
    {
      var fired := false;
      if wait > 0 {
        fired := Timer(tokens == capacity && !ctxDone);
      }
      ok := tokens < capacity;
      if ok && (ctxDone || fired) {
        ok := *;
      }
      if ok {
        tokens := tokens + 1;
      }
    }

    /** Never blocks; releasing an empty gate changes nothing. */
    method Release()
      requires Valid()
      modifies this`tokens
      ensures Valid()
      ensures tokens == Max(0, old(tokens) - 1)
    {
      if tokens > 0 {
        tokens := tokens - 1;
      }
    }
  }
}
