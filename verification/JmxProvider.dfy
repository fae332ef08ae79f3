/** The connection provider and the controller count, seen from one goroutine: every path gives its permit back. */
module JmxProvider {
  import opened Wrappers
  import opened Strings
  import opened Sums
  import Int64

  class JMXProvider {
    const maxConnections: nat
    var free: nat

    constructor (maxConnections: nat)
      ensures this.maxConnections == maxConnections && free == maxConnections
    {
      this.maxConnections := maxConnections;
      free := maxConnections;
    }

    /**
     * The state in which the blocking acquire ends: with a permit or, if the context was cancelled, without one.
     * `opens` is whether the client then opens.
     */
    method NewConnection(cancelled: bool, opens: bool) returns (conn: JMXConnection?)
      requires cancelled || free > 0
      modifies this
      ensures conn != null <==> !cancelled && opens
      ensures free == if conn != null then old(free) - 1 else old(free)
      ensures conn != null ==> fresh(conn) && conn.provider == this && conn.open
    {
      if cancelled {
        return null;
      }
      free := free - 1;
      if !opens {
        free := free + 1;
        return null;
      }
      conn := new JMXConnection(this);
    }
  }

  class JMXConnection {
    const provider: JMXProvider
    var open: bool

    constructor (provider: JMXProvider)
      ensures this.provider == provider && open
    {
      this.provider := provider;
      open := true;
    }

    /** The permit is given back even if closing the client fails. */
    method Close(closes: bool) returns (ok: bool)
      requires open
      modifies this, provider
      ensures !open && provider.free == old(provider.free) + 1 && ok == closes
    {
      open := false;
      provider.free := provider.free + 1;
      ok := closes;
    }
  }

  const VALUE_SUFFIX := "attr=Value"

  /** An attribute of the answer; None when its value is not a number. */
  datatype Attribute = Attribute(name: string, value: Option<real>)

  datatype BrokerAnswer = OpenFails | QueryFails | Attributes(attributes: seq<Attribute>)

  /** Converting a number to an integer cuts off towards zero. */
  function Truncated(x: real): int {
    if x >= 0.0 then x.Floor else -(-x).Floor
  }

  function Contribution(a: Attribute): int {
    if HasSuffix(a.name, VALUE_SUFFIX) && a.value.Some? then Truncated(a.value.value) else 0
  }

  /** The count is over every numeric attribute of every broker that answered whose name ends in the value suffix. */
  ghost function AttributeCount(attributes: seq<Attribute>): int {
    Sum(attributes, Contribution)
  }

  ghost function BrokerCount(answer: BrokerAnswer): int {
    if answer.Attributes? then AttributeCount(answer.attributes) else 0
  }

  ghost function ActiveCount(answers: seq<BrokerAnswer>): int {
    Sum(answers, BrokerCount)
  }

  method AddAttributes(count0: int, attributes: seq<Attribute>) returns (count: int)
    requires Int64.InRange(count0)
    ensures count == Int64.Wrap(count0 + AttributeCount(attributes))
  {
    count := count0;
    for j := 0 to |attributes|
      invariant count == Int64.Wrap(count0 + Sum(attributes[..j], Contribution))
    {
      assert attributes[..j + 1] == attributes[..j] + [attributes[j]];
      SumAppend(attributes[..j], attributes[j], Contribution);
      if !HasSuffix(attributes[j].name, VALUE_SUFFIX) {
        continue;
      }
      if attributes[j].value.Some? {
        Int64.WrapAdd(count0 + Sum(attributes[..j], Contribution), Contribution(attributes[j]));
        count := Int64.Wrap(count + Truncated(attributes[j].value.value));
      }
    }
    assert attributes[..|attributes|] == attributes;
  }

  /** One connection per broker, one after the other; whatever fails, no permit is kept. */
  method CountActiveControllers(provider: JMXProvider, answers: seq<BrokerAnswer>) returns (activeCount: int)
    requires provider.free > 0
    modifies provider
    ensures activeCount == Int64.Wrap(ActiveCount(answers))
    ensures provider.free == old(provider.free)
  {
    activeCount := 0;
    for i := 0 to |answers|
      invariant Int64.InRange(activeCount) && activeCount == Int64.Wrap(Sum(answers[..i], BrokerCount))
      invariant provider.free == old(provider.free)
    {
      assert answers[..i + 1] == answers[..i] + [answers[i]];
      SumAppend(answers[..i], answers[i], BrokerCount);
      var conn := provider.NewConnection(false, answers[i] != OpenFails);
      if conn == null {
        continue;
      }
      if answers[i] == QueryFails {
        var _ := conn.Close(true);
        continue;
      }
      Int64.WrapAdd(Sum(answers[..i], BrokerCount), BrokerCount(answers[i]));
      activeCount := AddAttributes(activeCount, answers[i].attributes);
      var _ := conn.Close(true);
    }
    assert answers[..|answers|] == answers;
  }

  /**
   * One more attribute of a broker: its value, cut off towards zero, is added if it is a number and the attribute's
   * name ends in "attr=Value"; anything else adds nothing.
   */
  lemma OneMoreAttribute(attributes: seq<Attribute>, name: string, value: Option<real>)
    ensures AttributeCount([]) == 0
    ensures HasSuffix(name, "attr=Value") && value.Some? ==>
              var added := AttributeCount(attributes + [Attribute(name, value)]) - AttributeCount(attributes);
              if value.value >= 0.0 then added as real <= value.value < added as real + 1.0
              else added as real - 1.0 < value.value <= added as real
    ensures !HasSuffix(name, "attr=Value") || value.None? ==>
              AttributeCount(attributes + [Attribute(name, value)]) == AttributeCount(attributes)
  {
    SumAppend(attributes, Attribute(name, value), Contribution);
  }

  lemma OneMoreBroker(answers: seq<BrokerAnswer>, attributes: seq<Attribute>)
    ensures ActiveCount([]) == 0
    ensures ActiveCount(answers + [OpenFails]) == ActiveCount(answers)
    ensures ActiveCount(answers + [QueryFails]) == ActiveCount(answers)
    ensures ActiveCount(answers + [Attributes(attributes)]) == ActiveCount(answers) + AttributeCount(attributes)
  {
    SumAppend(answers, OpenFails, BrokerCount);
    SumAppend(answers, QueryFails, BrokerCount);
    SumAppend(answers, Attributes(attributes), BrokerCount);
  }

  ghost predicate StrictFlags(attributes: seq<Attribute>) {
    forall a :: a in attributes && HasSuffix(a.name, VALUE_SUFFIX) ==> a.value == Some(0.0) || a.value == Some(1.0)
  }

  lemma SingleFlag(a: BrokerAnswer)
    requires a.Attributes? && |a.attributes| == 1 && StrictFlags(a.attributes)
    ensures AttributeCount(a.attributes) == Reports(a)
  {
    SumSingle(a.attributes[0], Contribution);
    assert a.attributes == [a.attributes[0]];
    assert a.attributes[0] in a.attributes;
  }

  /** Each broker reporting 0 or 1 in one attribute: the count is the number of brokers that report 1. */
  lemma {:induction false} CountIsNumberOfControllers(answers: seq<BrokerAnswer>)
    requires forall a :: a in answers && a.Attributes? ==> |a.attributes| == 1 && StrictFlags(a.attributes)
    ensures ActiveCount(answers) == Sum(answers, Reports)
  {
    if answers != [] {
      CountIsNumberOfControllers(answers[1..]);
      if answers[0].Attributes? {
        SingleFlag(answers[0]);
      }
    }
  }

  /** 1 if the broker answered and its value attribute is 1. */
  function Reports(a: BrokerAnswer): int {
    if a.Attributes? && |a.attributes| == 1 && HasSuffix(a.attributes[0].name, "attr=Value")
        && a.attributes[0].value == Some(1.0)
    then 1 else 0
  }
}
