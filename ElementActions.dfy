/** The element-interaction helpers: a bounded retry loop that resolves a
    locator to a live element, and the user actions built on it.

    The engine is an oracle. `polls(i)` is what the i-th attempt of one
    resolution produces (the wait and the highlighting script that follows
    it); the answer of each element command is a parameter. Every method
    returns, besides its result, the commands it issued to the engine. */
module ElementActions {
  import opened Selenium

  /** Attempts per resolution. */
  const MaxRetries: nat := 3

  /** The explicit wait's budget, in seconds; the wait itself is the oracle. */
  const WaitSeconds: nat := 8

  /** How the catch clauses of the retry loop treat a failure, tried in order:
      staleness is retried, a timeout or a missing element is reported as not
      found, and anything else is rethrown. */
  datatype Handling = Retry | NotFound | Rethrow

  function Handle(x: Exception): Handling {
    match x
    case StaleElementReference => Retry
    case Timeout => NotFound
    case NoSuchElement => NotFound
    case _ => Rethrow
  }

  predicate IsStale(a: Attempt) {
    !a.Located? && Handle(a.failure) == Retry
  }

  function StaleMessage(l: Locator): string {
    "Element remained stale after retries: " + Describe(l)
  }

  function NotFoundMessage(l: Locator): string {
    "Element could not be found: " + Describe(l)
  }

  function FallThroughMessage(l: Locator): string {
    "Unexpected error occurred while getting element: " + Describe(l)
  }

  /** What a resolution returns or throws, and how many attempts it made. */
  datatype Resolution = Resolution(result: Result<Element>, attempts: nat)

  /** The result of a resolution that attempt `a` ends: its element, or its
      failure translated by the catch clause that takes it. A stale attempt
      ends a resolution only when it is the last one allowed. */
  function Verdict(l: Locator, a: Attempt): Result<Element> {
    match a
    case Located(e) => Ok(e)
    case _ =>
      match Handle(a.failure)
      case Retry => Err(ElementNotVisible(StaleMessage(l), a.failure))
      case NotFound => Err(ElementNotVisible(NotFoundMessage(l), a.failure))
      case Rethrow => Err(a.failure)
  }

  /** The retry loop from attempt index `i` on, including the throw after the
      loop. From any index inside the loop the call ends with the verdict of
      some attempt, never with that throw: every attempt before the deciding
      one was stale, and a stale attempt decides only as the last one. */
  function ResolveFrom(l: Locator, polls: nat -> Attempt, i: nat): (r: Resolution)
    decreases MaxRetries - i
    ensures i < MaxRetries ==> i < r.attempts <= MaxRetries
    ensures i < MaxRetries ==> r.result == Verdict(l, polls(r.attempts - 1))
    ensures i < MaxRetries ==> forall j :: i <= j < r.attempts - 1 ==> IsStale(polls(j))
    ensures i < MaxRetries && IsStale(polls(r.attempts - 1)) ==> r.attempts == MaxRetries
  {
    if i >= MaxRetries then
      Resolution(Err(Runtime(FallThroughMessage(l))), i)
    else
      match polls(i)
      case Located(e) => Resolution(Ok(e), i + 1)
      case _ =>
        match Handle(polls(i).failure)
        case Retry =>
          if i == 2 then Resolution(Err(ElementNotVisible(StaleMessage(l), polls(i).failure)), i + 1)
          else ResolveFrom(l, polls, i + 1)
        case NotFound => Resolution(Err(ElementNotVisible(NotFoundMessage(l), polls(i).failure)), i + 1)
        case Rethrow => Resolution(Err(polls(i).failure), i + 1)
  }

  /** One full resolution of `l`. */
  function Resolve(l: Locator, polls: nat -> Attempt): Resolution {
    ResolveFrom(l, polls, 0)
  }

  /** The commands one attempt issues: the wait, then the highlighting script
      when the wait yielded an element. */
  function AttemptCommands(l: Locator, a: Attempt): seq<Command> {
    match a
    case WaitFails(_) => [AwaitVisible(l)]
    case HighlightFails(e, _) => [AwaitVisible(l), Highlight(e)]
    case Located(e) => [AwaitVisible(l), Highlight(e)]
  }

  /** The commands of the first `n` attempts. */
  function Commands(l: Locator, polls: nat -> Attempt, n: nat): seq<Command> {
    if n == 0 then [] else Commands(l, polls, n - 1) + AttemptCommands(l, polls(n - 1))
  }

  /** The number of waits in a command sequence. */
  function Awaits(t: seq<Command>): nat {
    if t == [] then 0 else (if t[0].AwaitVisible? then 1 else 0) + Awaits(t[1..])
  }

  /** The user actions in a command sequence: everything but waits and highlights. */
  function Actions(t: seq<Command>): seq<Command> {
    if t == [] then []
    else (if t[0].AwaitVisible? || t[0].Highlight? then [] else [t[0]]) + Actions(t[1..])
  }

  lemma {:induction false} AwaitsActionsAppend(a: seq<Command>, b: seq<Command>)
    ensures Awaits(a + b) == Awaits(a) + Awaits(b)
    ensures Actions(a + b) == Actions(a) + Actions(b)
  {
    if a != [] {
      assert (a + b)[0] == a[0];
      assert (a + b)[1..] == a[1..] + b;
      AwaitsActionsAppend(a[1..], b);
    } else {
      assert a + b == b;
    }
  }

  lemma AttemptCounts(l: Locator, a: Attempt)
    ensures Awaits(AttemptCommands(l, a)) == 1
    ensures Actions(AttemptCommands(l, a)) == []
  {
    var t := AttemptCommands(l, a);
    assert t[0] == AwaitVisible(l);
    if a.WaitFails? {
      assert t[1..] == [];
    } else {
      assert t[1..][0] == Highlight(a.element);
      assert t[1..][1..] == [];
      assert Awaits(t[1..]) == 0 && Actions(t[1..]) == [];
    }
  }

  /** `n` attempts issue exactly `n` waits and no user action. */
  lemma {:induction false} CommandsCounts(l: Locator, polls: nat -> Attempt, n: nat)
    ensures Awaits(Commands(l, polls, n)) == n
    ensures Actions(Commands(l, polls, n)) == []
  {
    if n > 0 {
      CommandsCounts(l, polls, n - 1);
      AwaitsActionsAppend(Commands(l, polls, n - 1), AttemptCommands(l, polls(n - 1)));
      AttemptCounts(l, polls(n - 1));
    }
  }

  /** The commands of a resolution and `after`, split into waits and user actions. */
  lemma CountsAfterResolution(l: Locator, polls: nat -> Attempt, after: seq<Command>)
    ensures Awaits(Commands(l, polls, Resolve(l, polls).attempts) + after)
         == Resolve(l, polls).attempts + Awaits(after)
    ensures Actions(Commands(l, polls, Resolve(l, polls).attempts) + after) == Actions(after)
  {
    CommandsCounts(l, polls, Resolve(l, polls).attempts);
    AwaitsActionsAppend(Commands(l, polls, Resolve(l, polls).attempts), after);
  }

  /** A resolution whose first `k` attempts are stale and whose next attempt is
      not ends with that attempt's verdict after `k + 1` attempts. */
  lemma {:induction false} SettlesAt(l: Locator, polls: nat -> Attempt, k: nat)
    requires k < MaxRetries
    requires forall j :: 0 <= j < k ==> IsStale(polls(j))
    requires !IsStale(polls(k))
    ensures Resolve(l, polls) == Resolution(Verdict(l, polls(k)), k + 1)
  {
  }

  /** Found on the first attempt: the element is returned and nothing is retried. */
  lemma FoundFirst(l: Locator, polls: nat -> Attempt, e: Element)
    requires polls(0) == Located(e)
    ensures Resolve(l, polls) == Resolution(Ok(e), 1)
  {
    SettlesAt(l, polls, 0);
  }

  /** `k` stale attempts and then a found element: that element after `k + 1` attempts. */
  lemma StaleThenFound(l: Locator, polls: nat -> Attempt, k: nat, e: Element)
    requires k < MaxRetries
    requires forall j :: 0 <= j < k ==> IsStale(polls(j))
    requires polls(k) == Located(e)
    ensures Resolve(l, polls) == Resolution(Ok(e), k + 1)
  {
    SettlesAt(l, polls, k);
  }

  /** Three stale attempts: the resolution fails as remaining stale, after exactly
      three attempts, wrapping the third staleness. */
  lemma AllStale(l: Locator, polls: nat -> Attempt)
    requires forall j :: 0 <= j < MaxRetries ==> IsStale(polls(j))
    ensures Resolve(l, polls)
         == Resolution(Err(ElementNotVisible(StaleMessage(l), polls(2).failure)), MaxRetries)
  {
    var r := Resolve(l, polls);
    assert IsStale(polls(r.attempts - 1));
  }

  /** A timeout or a missing element fails the resolution at once as not found,
      wrapping the engine's exception. */
  lemma AbsentFailsFast(l: Locator, polls: nat -> Attempt, k: nat)
    requires k < MaxRetries
    requires forall j :: 0 <= j < k ==> IsStale(polls(j))
    requires !polls(k).Located? && Handle(polls(k).failure) == NotFound
    ensures Resolve(l, polls)
         == Resolution(Err(ElementNotVisible(NotFoundMessage(l), polls(k).failure)), k + 1)
  {
    SettlesAt(l, polls, k);
  }

  /** Any other failure, from the wait or from the highlighting script, is
      rethrown unchanged and not retried. */
  lemma OtherRethrown(l: Locator, polls: nat -> Attempt, k: nat)
    requires k < MaxRetries
    requires forall j :: 0 <= j < k ==> IsStale(polls(j))
    requires !polls(k).Located? && Handle(polls(k).failure) == Rethrow
    ensures Resolve(l, polls) == Resolution(Err(polls(k).failure), k + 1)
  {
    SettlesAt(l, polls, k);
  }

  /** A resolution never throws a staleness, a timeout or a missing element:
      those are always wrapped, so what escapes is a wrapper or a foreign failure. */
  lemma NoRawLookupFailure(l: Locator, polls: nat -> Attempt)
    ensures Resolve(l, polls).result.Err? ==>
      var x, k := Resolve(l, polls).result.error, Resolve(l, polls).attempts - 1;
      Handle(x) == Rethrow && !polls(k).Located? &&
      (x == polls(k).failure ||
       x == ElementNotVisible(StaleMessage(l), polls(k).failure) ||
       x == ElementNotVisible(NotFoundMessage(l), polls(k).failure))
  {
  }

  /** No attempt beyond the deciding one is made: the resolution is the same
      whatever the engine would have answered afterwards. */
  lemma {:induction false} NoFurtherAttempts(l: Locator, polls: nat -> Attempt, other: nat -> Attempt)
    requires forall j :: 0 <= j < Resolve(l, polls).attempts ==> other(j) == polls(j)
    ensures Resolve(l, other) == Resolve(l, polls)
  {
    var k := Resolve(l, polls).attempts - 1;
    if IsStale(polls(k)) {
      AllStale(l, polls);
      AllStale(l, other);
    } else {
      SettlesAt(l, polls, k);
      SettlesAt(l, other, k);
    }
  }

  /** The helpers bound to one driver session. */
  class ElementActions {
    const driver: WebDriver
    const waitSeconds: nat

    constructor (driver: WebDriver)
      ensures this.driver == driver && waitSeconds == WaitSeconds
    {
      this.driver := driver;
      waitSeconds := WaitSeconds;
    }

    /** Resolves `locator`, retrying only on staleness, MaxRetries attempts at most. */
    method GetElement(locator: Locator, polls: nat -> Attempt)
      returns (r: Result<Element>, attempts: nat, trace: seq<Command>)
      ensures Resolve(locator, polls) == Resolution(r, attempts)
      ensures 1 <= attempts <= MaxRetries
      ensures trace == Commands(locator, polls, attempts)
    {
      var i: nat := 0;
      trace := [];
      while i < MaxRetries
        invariant i <= 2
        invariant ResolveFrom(locator, polls, i) == Resolve(locator, polls)
        invariant trace == Commands(locator, polls, i)
        decreases MaxRetries - i
      {
        var failure: Exception;
        ghost var before := trace;
        trace := trace + [AwaitVisible(locator)];
        match polls(i) {
          case WaitFails(x) =>
            failure := x;
          case HighlightFails(e, x) =>
            trace := trace + [Highlight(e)];
            failure := x;
          case Located(e) =>
            trace := trace + [Highlight(e)];
            assert trace == before + AttemptCommands(locator, polls(i));
            r, attempts := Ok(e), i + 1;
            return;
        }
        assert trace == before + AttemptCommands(locator, polls(i));
        assert trace == Commands(locator, polls, i + 1);
        assert failure == polls(i).failure;
        match Handle(failure) {
          case Retry =>
            if i == 2 {
              r, attempts := Err(ElementNotVisible(StaleMessage(locator), failure)), i + 1;
              return;
            }
          case NotFound =>
            r, attempts := Err(ElementNotVisible(NotFoundMessage(locator), failure)), i + 1;
            return;
          case Rethrow =>
            r, attempts := Err(failure), i + 1;
            return;
        }
        i := i + 1;
      }
      assert false;
      r, attempts := Err(Runtime(FallThroughMessage(locator))), i;
    }

    method Click(locator: Locator, polls: nat -> Attempt, reply: Result<()>)
      returns (r: Result<()>, trace: seq<Command>)
      ensures var res := Resolve(locator, polls);
        if res.result.Err? then
          r == Err(res.result.error) && trace == Commands(locator, polls, res.attempts)
        else
          r == reply && trace == Commands(locator, polls, res.attempts) + [Command.Click(res.result.value)]
      ensures Awaits(trace) == Resolve(locator, polls).attempts
      ensures Actions(trace) == if Resolve(locator, polls).result.Ok?
                                then [Command.Click(Resolve(locator, polls).result.value)] else []
    {
      var e, n;
      e, n, trace := GetElement(locator, polls);
      if e.Err? {
        r := Err(e.error);
      } else {
        trace := trace + [Command.Click(e.value)];
        r := reply;
      }
      CountsAfterResolution(locator, polls, trace[|Commands(locator, polls, n)|..]);
      assert trace == Commands(locator, polls, n) + trace[|Commands(locator, polls, n)|..];
    }

    /** Resolves `locator` and clears the element, then resolves it a second
        time and types `keys` into the element that second resolution yields. */
    method SendKeys(locator: Locator, keys: seq<string>,
                    clearPolls: nat -> Attempt, clearReply: Result<()>,
                    typePolls: nat -> Attempt, typeReply: Result<()>)
      returns (r: Result<()>, trace: seq<Command>)
      ensures var first, second := Resolve(locator, clearPolls), Resolve(locator, typePolls);
        var head := Commands(locator, clearPolls, first.attempts);
        if first.result.Err? then
          r == Err(first.result.error) && trace == head
        else if clearReply.Err? then
          r == clearReply && trace == head + [Clear(first.result.value)]
        else if second.result.Err? then
          r == Err(second.result.error) &&
          trace == head + [Clear(first.result.value)] + Commands(locator, typePolls, second.attempts)
        else
          r == typeReply &&
          trace == head + [Clear(first.result.value)] + Commands(locator, typePolls, second.attempts)
                   + [Command.SendKeys(second.result.value, keys)]
      ensures var first, second := Resolve(locator, clearPolls), Resolve(locator, typePolls);
        Awaits(trace) == first.attempts + (if first.result.Ok? && clearReply.Ok? then second.attempts else 0)
      ensures var first, second := Resolve(locator, clearPolls), Resolve(locator, typePolls);
        Actions(trace) ==
          if first.result.Err? then []
          else if clearReply.Err? || second.result.Err? then [Clear(first.result.value)]
          else [Clear(first.result.value), Command.SendKeys(second.result.value, keys)]
    {
      var e1, n1, t1 := GetElement(locator, clearPolls);
      CommandsCounts(locator, clearPolls, n1);
      trace := t1;
      if e1.Err? {
        r := Err(e1.error);
        return;
      }
      AwaitsActionsAppend(t1, [Clear(e1.value)]);
      trace := trace + [Clear(e1.value)];
      if clearReply.Err? {
        r := clearReply;
        return;
      }
      var e2, n2, t2 := GetElement(locator, typePolls);
      CommandsCounts(locator, typePolls, n2);
      AwaitsActionsAppend(trace, t2);
      trace := trace + t2;
      if e2.Err? {
        r := Err(e2.error);
        return;
      }
      AwaitsActionsAppend(trace, [Command.SendKeys(e2.value, keys)]);
      trace := trace + [Command.SendKeys(e2.value, keys)];
      r := typeReply;
    }

    /** Whether the element is shown. Never throws: a failed resolution, and a
        failed query of the element, both answer false. */
    method IsDisplayed(locator: Locator, polls: nat -> Attempt, reply: Result<bool>)
      returns (shown: bool, trace: seq<Command>)
      ensures shown <==> Resolve(locator, polls).result.Ok? && reply == Ok(true)
      ensures var res := Resolve(locator, polls);
        trace == Commands(locator, polls, res.attempts)
                 + if res.result.Ok? then [Command.IsDisplayed(res.result.value)] else []
    {
      var e, n;
      e, n, trace := GetElement(locator, polls);
      if e.Err? {
        // A timeout or missing element would take the first catch clause and
        // anything else the second; both answer false.
        shown := false;
        return;
      }
      trace := trace + [Command.IsDisplayed(e.value)];
      match reply {
        case Ok(flag) => shown := flag;
        case Err(_) => shown := false;
      }
    }

    method GetText(locator: Locator, polls: nat -> Attempt, reply: Result<string>)
      returns (r: Result<string>, trace: seq<Command>)
      ensures var res := Resolve(locator, polls);
        if res.result.Err? then
          r == Err(res.result.error) && trace == Commands(locator, polls, res.attempts)
        else
          r == reply && trace == Commands(locator, polls, res.attempts) + [Command.GetText(res.result.value)]
      ensures Awaits(trace) == Resolve(locator, polls).attempts
    {
      var e, n;
      e, n, trace := GetElement(locator, polls);
      if e.Err? {
        r := Err(e.error);
      } else {
        trace := trace + [Command.GetText(e.value)];
        r := reply;
      }
      CountsAfterResolution(locator, polls, trace[|Commands(locator, polls, n)|..]);
      assert trace == Commands(locator, polls, n) + trace[|Commands(locator, polls, n)|..];
    }

    /** Resolves `locator`, wraps it as a select control and applies `choice`;
        `reply` is the engine's answer to wrapping and selecting together. */
    method Select(locator: Locator, choice: Choice, polls: nat -> Attempt, reply: Result<()>)
      returns (r: Result<()>, trace: seq<Command>)
      ensures var res := Resolve(locator, polls);
        if res.result.Err? then
          r == Err(res.result.error) && trace == Commands(locator, polls, res.attempts)
        else
          r == reply && trace == Commands(locator, polls, res.attempts) + [SelectOption(res.result.value, choice)]
      ensures Awaits(trace) == Resolve(locator, polls).attempts
      ensures Actions(trace) == if Resolve(locator, polls).result.Ok?
                                then [SelectOption(Resolve(locator, polls).result.value, choice)] else []
    {
      var e, n;
      e, n, trace := GetElement(locator, polls);
      if e.Err? {
        r := Err(e.error);
      } else {
        trace := trace + [SelectOption(e.value, choice)];
        r := reply;
      }
      CountsAfterResolution(locator, polls, trace[|Commands(locator, polls, n)|..]);
      assert trace == Commands(locator, polls, n) + trace[|Commands(locator, polls, n)|..];
    }

    method SelectByValue(locator: Locator, value: string, polls: nat -> Attempt, reply: Result<()>)
      returns (r: Result<()>, trace: seq<Command>)
      ensures var res := Resolve(locator, polls);
        if res.result.Err? then
          r == Err(res.result.error) && trace == Commands(locator, polls, res.attempts)
        else
          r == reply && trace == Commands(locator, polls, res.attempts) + [SelectOption(res.result.value, ByValue(value))]
      ensures Awaits(trace) == Resolve(locator, polls).attempts
      ensures Actions(trace) == if Resolve(locator, polls).result.Ok?
                                then [SelectOption(Resolve(locator, polls).result.value, ByValue(value))] else []
    {
      r, trace := Select(locator, ByValue(value), polls, reply);
    }

    method SelectByVisibleText(locator: Locator, text: string, polls: nat -> Attempt, reply: Result<()>)
      returns (r: Result<()>, trace: seq<Command>)
      ensures var res := Resolve(locator, polls);
        if res.result.Err? then
          r == Err(res.result.error) && trace == Commands(locator, polls, res.attempts)
        else
          r == reply && trace == Commands(locator, polls, res.attempts) + [SelectOption(res.result.value, ByVisibleText(text))]
      ensures Awaits(trace) == Resolve(locator, polls).attempts
      ensures Actions(trace) == if Resolve(locator, polls).result.Ok?
                                then [SelectOption(Resolve(locator, polls).result.value, ByVisibleText(text))] else []
    {
      r, trace := Select(locator, ByVisibleText(text), polls, reply);
    }

    method SelectByIndex(locator: Locator, index: int, polls: nat -> Attempt, reply: Result<()>)
      returns (r: Result<()>, trace: seq<Command>)
      ensures var res := Resolve(locator, polls);
        if res.result.Err? then
          r == Err(res.result.error) && trace == Commands(locator, polls, res.attempts)
        else
          r == reply && trace == Commands(locator, polls, res.attempts) + [SelectOption(res.result.value, ByIndex(index))]
      ensures Awaits(trace) == Resolve(locator, polls).attempts
      ensures Actions(trace) == if Resolve(locator, polls).result.Ok?
                                then [SelectOption(Resolve(locator, polls).result.value, ByIndex(index))] else []
    {
      r, trace := Select(locator, ByIndex(index), polls, reply);
    }
  }
}
