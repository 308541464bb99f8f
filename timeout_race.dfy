/**
 * `withTimeout(promise, ms, label)`: a pending operation raced against a
 * deadline timer. Whichever settles first decides the outcome; the timer is
 * cleared however the race ends.
 */
module TimeoutRace {
  import opened JsValues

  /** How a promise settles. */
  datatype Outcome<+T> = Resolved(value: T) | Rejected(message: string)

  /** Which side of the race settles first: the wrapped operation, or the deadline. */
  datatype First<+T> = InnerFirst(inner: Outcome<T>) | DeadlineFirst

  /** The error text of an elapsed deadline: "<label> timed out after <ms>ms". */
  function TimeoutMessage(opLabel: string, ms: nat): string {
    opLabel + " timed out after " + NatText(ms) + "ms"
  }

  /**
   * The settled value of the race: the wrapped operation's own result
   * (resolution or rejection, unchanged) when it settles first, otherwise
   * the labelled timeout rejection.
   */
  function Settle<T>(first: First<T>, opLabel: string, ms: nat): (o: Outcome<T>)
    ensures first.InnerFirst? ==> o == first.inner
    ensures first.DeadlineFirst? ==> o.Rejected? && o.message == TimeoutMessage(opLabel, ms)
  {
    match first
    case InnerFirst(inner) => inner
    case DeadlineFirst => Rejected(TimeoutMessage(opLabel, ms))
  }

  /** A deadline rejection can be told apart from any inner rejection that does not start with the label text. */
  lemma TimeoutMessageNamesLabel(opLabel: string, ms: nat)
    ensures TimeoutMessage(opLabel, ms)[..|opLabel|] == opLabel
    ensures |TimeoutMessage(opLabel, ms)| > |opLabel| + 16
  {
  }

  /** The message the utilities' tests expect for a 50 ms deadline labelled "test_op". */
  lemma TimeoutMessageExample()
    ensures TimeoutMessage("test_op", 50) == "test_op timed out after 50ms"
  {
    assert NatText(50) == "50" by {
      assert NatText(50) == NatText(5) + [DigitChar(0)];
    }
    assert "test_op" + " timed out after " + "50" + "ms" == "test_op timed out after 50ms";
  }

  /**
   * One call of `withTimeout`: the deadline timer and the race's settled value.
   * `timerArmed` holds exactly while the race is unsettled.
   */
  class Race<T> {
    const opLabel: string
    const ms: nat
    var timerArmed: bool
    var result: Option<Outcome<T>>

    ghost predicate Valid()
      reads this
    {
      timerArmed <==> result.None?
    }

    /** `withTimeout` starts the deadline timer; nothing has settled yet. */
    constructor (opLabel: string, ms: nat)
      ensures Valid() && this.opLabel == opLabel && this.ms == ms
      ensures timerArmed && result == None
    {
      this.opLabel := opLabel;
      this.ms := ms;
      timerArmed := true;
      result := None;
    }

    /**
     * The wrapped operation settles. If the race is still open it takes the
     * operation's result and `.finally` clears the timer; a late settlement
     * of an already decided race changes nothing.
     */
    method InnerSettles(o: Outcome<T>)
      requires Valid()
      modifies this
      ensures Valid() && !timerArmed
      ensures result == if old(result).None? then Some(o) else old(result)
    {
      if result.None? {
        result := Some(o);
        timerArmed := false;
      }
    }

    /**
     * The deadline timer callback. A cleared timer never fires, so only an
     * open race is affected: it rejects with the labelled timeout message.
     */
    method DeadlineElapses()
      requires Valid()
      modifies this
      ensures Valid() && !timerArmed
      ensures result == if old(timerArmed) then Some(Rejected(TimeoutMessage(opLabel, ms))) else old(result)
    {
      if timerArmed {
        result := Some(Rejected(TimeoutMessage(opLabel, ms)));
        timerArmed := false;
      }
    }
  }

  /**
   * The timer class and `Settle` agree on every race: played on a `Race`
   * in the order `first` names, with the losing side (`late` for an
   * operation that settles after the deadline) arriving afterwards, the
   * settled value is `Settle(first, opLabel, ms)`.
   */
  method RaceAgreesWithSettle<T>(first: First<T>, late: Outcome<T>, opLabel: string, ms: nat) returns (o: Outcome<T>)
    ensures o == Settle(first, opLabel, ms)
  {
    var r := new Race<T>(opLabel, ms);
    match first {
      case InnerFirst(inner) =>
        r.InnerSettles(inner);
        r.DeadlineElapses();
      case DeadlineFirst =>
        r.DeadlineElapses();
        r.InnerSettles(late);
    }
    o := r.result.value;
  }

  /**
   * The three behaviours the utilities' tests exercise: a quick resolution
   * passes through, a slow operation times out with the labelled message, and
   * an early rejection propagates unchanged. Both orders of arrival are
   * played on the class and agree with `Settle`.
   */
  method RaceExamples() returns (quick: Outcome<string>, slow: Outcome<string>, failed: Outcome<string>)
    ensures quick == Resolved("ok")
    ensures slow == Rejected("test_op timed out after 50ms")
    ensures failed == Rejected("boom")
  {
    var r1 := new Race<string>("test", 1000);
    r1.InnerSettles(Resolved("ok"));
    r1.DeadlineElapses();
    quick := r1.result.value;
    assert quick == Settle(InnerFirst(Resolved("ok")), "test", 1000);

    var r2 := new Race<string>("test_op", 50);
    r2.DeadlineElapses();
    r2.InnerSettles(Resolved("late"));
    slow := r2.result.value;
    TimeoutMessageExample();

    var r3 := new Race<string>("test", 1000);
    r3.InnerSettles(Rejected("boom"));
    failed := r3.result.value;
  }
}
