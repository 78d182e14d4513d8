/**
 * The configuration properties of the Azure Service Bus JMS auto-configuration:
 * the connection settings, the owned prefetch-policy and listener groups, the
 * prefetch resolution rules and the validation run after binding.
 */
module ServiceBusJms {
  import opened Wrappers
  import opened SpringText

  /** A Java `int`. No operation here does arithmetic on it, so nothing wraps around. */
  newtype int32 = x: int | -0x8000_0000 <= x < 0x8000_0000

  /** Default idle timeout of a connection, in milliseconds (30 minutes). */
  const DefaultIdleTimeout: int32 := 1800000

  /** The prefix under which the properties are bound. */
  const PropertyPrefix := "spring.jms.servicebus"
  const ConnectionStringKey := PropertyPrefix + ".connection-string"
  const PricingTierKey := PropertyPrefix + ".pricing-tier"
  const ConnectionStringMessage := "'" + ConnectionStringKey + "' should be provided"
  const PricingTierMessage := "'" + PricingTierKey + "' is not valid"

  /** The accepted pricing tiers, in the lower-case spelling of the pattern. */
  const PricingTiers: seq<string> := ["premium", "standard", "basic"]

  /** What `validate` throws: an IllegalArgumentException with its message, or a NullPointerException. */
  datatype ConfigError = IllegalArgument(message: string) | NullPointer

  /** `validate` either returns normally or throws. */
  datatype Outcome = Pass | Fail(error: ConfigError)

  /** `Math.max` on two ints. */
  function Max(a: int32, b: int32): (r: int32)
    ensures r >= a && r >= b
    ensures r == a || r == b
  {
    if a >= b then a else b
  }

  /**
   * The effective value of one specific prefetch setting: the specific value
   * when it is positive, otherwise the group-wide value clamped at 0.
   */
  function Resolve(specific: int32, all: int32): (r: int32)
    ensures r >= 0
    ensures specific > 0 ==> r == specific
    ensures specific <= 0 ==> r == Max(all, 0)
    ensures r > 0 <==> specific > 0 || all > 0
  {
    if specific > 0 then specific else Max(all, 0)
  }

  /** Resolving an already resolved value against the same group-wide value changes nothing. */
  lemma ResolveIsIdempotent(specific: int32, all: int32)
    ensures Resolve(Resolve(specific, all), all) == Resolve(specific, all)
  {
  }

  /**
   * The pattern `(?i)premium|standard|basic` under `String.matches`: the whole
   * string is one of the three alternatives, letter by letter, ignoring ASCII case.
   */
  predicate MatchesPricingTierPattern(t: string)
  {
    EqualsIgnoreAsciiCase(t, "premium") || EqualsIgnoreAsciiCase(t, "standard") || EqualsIgnoreAsciiCase(t, "basic")
  }

  /** A tier matches the pattern exactly when its ASCII lower-casing is one of the three tier names. */
  lemma PricingTierPatternIsCanonical(t: string)
    ensures MatchesPricingTierPattern(t) <==> LowerAscii(t) in PricingTiers
  {
    EqualsIgnoreAsciiCaseOfLowerWord(t, "premium");
    EqualsIgnoreAsciiCaseOfLowerWord(t, "standard");
    EqualsIgnoreAsciiCaseOfLowerWord(t, "basic");
  }

  /** Two spellings that differ only in ASCII case are both accepted or both rejected. */
  lemma PricingTierIsCaseInsensitive(t: string, u: string)
    requires LowerAscii(t) == LowerAscii(u)
    ensures MatchesPricingTierPattern(t) <==> MatchesPricingTierPattern(u)
  {
    PricingTierPatternIsCanonical(t);
    PricingTierPatternIsCanonical(u);
  }

  /** A capitalised tier name is accepted. */
  lemma PricingTierAcceptsCapitalised()
    ensures MatchesPricingTierPattern("Premium")
  {
    assert LowerAscii("Premium") == "premium";
    EqualsIgnoreAsciiCaseOfLowerWord("Premium", "premium");
  }

  /** An upper-case tier name is accepted. */
  lemma PricingTierAcceptsUpperCase()
    ensures MatchesPricingTierPattern("STANDARD")
  {
    assert LowerAscii("STANDARD") == "standard";
    EqualsIgnoreAsciiCaseOfLowerWord("STANDARD", "standard");
  }

  /** The match covers the whole string: an extension, padding, the empty string or another word is rejected. */
  lemma PricingTierRejectsOtherStrings()
    ensures !MatchesPricingTierPattern("premiumx") && !MatchesPricingTierPattern(" basic")
    ensures !MatchesPricingTierPattern("") && !MatchesPricingTierPattern("gold")
  {
    PricingTierPatternIsCanonical("premiumx");
    PricingTierPatternIsCanonical(" basic");
    PricingTierPatternIsCanonical("");
    PricingTierPatternIsCanonical("gold");
  }

  /** The prefetch settings of the JMS connection factory, one group-wide value and four specific ones. */
  class PrefetchPolicy {
    var all: int32
    var durableTopicPrefetch: int32
    var queueBrowserPrefetch: int32
    var queuePrefetch: int32
    var topicPrefetch: int32

    constructor()
      ensures all == 0 && durableTopicPrefetch == 0 && queueBrowserPrefetch == 0
      ensures queuePrefetch == 0 && topicPrefetch == 0
      ensures GetAll() == 0 && GetDurableTopicPrefetch() == 0 && GetQueueBrowserPrefetch() == 0
      ensures GetQueuePrefetch() == 0 && GetTopicPrefetch() == 0
    {
      all, durableTopicPrefetch, queueBrowserPrefetch, queuePrefetch, topicPrefetch := 0, 0, 0, 0, 0;
    }

    /** The group-wide value, read as 0 when negative; the stored value is left as it is. */
    function GetAll(): (r: int32)
      reads this
      ensures r >= 0 && r >= all
      ensures r == all || r == 0
    {
      Max(all, 0)
    }

    method SetAll(value: int32)
      modifies this`all
      ensures all == value
      ensures value >= 0 ==> GetAll() == value
      ensures value < 0 ==> GetAll() == 0
    {
      all := value;
    }

    function GetDurableTopicPrefetch(): (r: int32)
      reads this
      ensures r >= 0
      ensures durableTopicPrefetch > 0 ==> r == durableTopicPrefetch
      ensures durableTopicPrefetch <= 0 ==> r == GetAll()
    {
      Resolve(durableTopicPrefetch, all)
    }

    method SetDurableTopicPrefetch(value: int32)
      modifies this`durableTopicPrefetch
      ensures durableTopicPrefetch == value
      ensures value > 0 ==> GetDurableTopicPrefetch() == value
      ensures value <= 0 ==> GetDurableTopicPrefetch() == GetAll()
    {
      durableTopicPrefetch := value;
    }

    function GetQueueBrowserPrefetch(): (r: int32)
      reads this
      ensures r >= 0
      ensures queueBrowserPrefetch > 0 ==> r == queueBrowserPrefetch
      ensures queueBrowserPrefetch <= 0 ==> r == GetAll()
    {
      Resolve(queueBrowserPrefetch, all)
    }

    method SetQueueBrowserPrefetch(value: int32)
      modifies this`queueBrowserPrefetch
      ensures queueBrowserPrefetch == value
      ensures value > 0 ==> GetQueueBrowserPrefetch() == value
      ensures value <= 0 ==> GetQueueBrowserPrefetch() == GetAll()
    {
      queueBrowserPrefetch := value;
    }

    function GetQueuePrefetch(): (r: int32)
      reads this
      ensures r >= 0
      ensures queuePrefetch > 0 ==> r == queuePrefetch
      ensures queuePrefetch <= 0 ==> r == GetAll()
    {
      Resolve(queuePrefetch, all)
    }

    method SetQueuePrefetch(value: int32)
      modifies this`queuePrefetch
      ensures queuePrefetch == value
      ensures value > 0 ==> GetQueuePrefetch() == value
      ensures value <= 0 ==> GetQueuePrefetch() == GetAll()
    {
      queuePrefetch := value;
    }

    function GetTopicPrefetch(): (r: int32)
      reads this
      ensures r >= 0
      ensures topicPrefetch > 0 ==> r == topicPrefetch
      ensures topicPrefetch <= 0 ==> r == GetAll()
    {
      Resolve(topicPrefetch, all)
    }

    method SetTopicPrefetch(value: int32)
      modifies this`topicPrefetch
      ensures topicPrefetch == value
      ensures value > 0 ==> GetTopicPrefetch() == value
      ensures value <= 0 ==> GetTopicPrefetch() == GetAll()
    {
      topicPrefetch := value;
    }
  }

  /**
   * The JMS listener settings. `Qos` stands for Spring's QosSettings, which is
   * only stored and handed back.
   */
  class Listener<Qos> {
    var replyPubSubDomain: Option<bool>
    var replyQosSettings: Option<Qos>
    var subscriptionDurable: Option<bool>
    var subscriptionShared: Option<bool>
    var phase: Option<int32>

    constructor()
      ensures replyPubSubDomain == None && replyQosSettings == None
      ensures subscriptionDurable == Some(true)
      ensures subscriptionShared == None && phase == None
    {
      replyPubSubDomain, replyQosSettings := None, None;
      subscriptionDurable := Some(true);
      subscriptionShared, phase := None, None;
    }

    method SetReplyPubSubDomain(value: Option<bool>)
      modifies this`replyPubSubDomain
      ensures replyPubSubDomain == value
    {
      replyPubSubDomain := value;
    }

    method SetReplyQosSettings(value: Option<Qos>)
      modifies this`replyQosSettings
      ensures replyQosSettings == value
    {
      replyQosSettings := value;
    }

    method SetSubscriptionDurable(value: Option<bool>)
      modifies this`subscriptionDurable
      ensures subscriptionDurable == value
    {
      subscriptionDurable := value;
    }

    method SetSubscriptionShared(value: Option<bool>)
      modifies this`subscriptionShared
      ensures subscriptionShared == value
    {
      subscriptionShared := value;
    }

    method SetPhase(value: Option<int32>)
      modifies this`phase
      ensures phase == value
    {
      phase := value;
    }
  }

  /**
   * The top-level settings. The listener and prefetch-policy groups are created
   * with the holder and owned by it for its whole life.
   */
  class AzureServiceBusJmsProperties<Qos> {
    var connectionString: Option<string>
    /** The JMS client id of the topic listener container. */
    var topicClientId: Option<string>
    var idleTimeout: int32
    var pricingTier: Option<string>
    const listener: Listener<Qos>
    const prefetchPolicy: PrefetchPolicy

    constructor()
      ensures connectionString == None && topicClientId == None && pricingTier == None
      ensures idleTimeout == DefaultIdleTimeout
      ensures fresh(listener) && fresh(prefetchPolicy)
      ensures listener.replyPubSubDomain == None && listener.replyQosSettings == None
      ensures listener.subscriptionDurable == Some(true)
      ensures listener.subscriptionShared == None && listener.phase == None
      ensures prefetchPolicy.GetAll() == 0 && prefetchPolicy.GetDurableTopicPrefetch() == 0
      ensures prefetchPolicy.GetQueueBrowserPrefetch() == 0 && prefetchPolicy.GetQueuePrefetch() == 0
      ensures prefetchPolicy.GetTopicPrefetch() == 0
    {
      connectionString, topicClientId, pricingTier := None, None, None;
      idleTimeout := DefaultIdleTimeout;
      listener := new Listener();
      prefetchPolicy := new PrefetchPolicy();
    }

    method SetConnectionString(value: Option<string>)
      modifies this`connectionString
      ensures connectionString == value
    {
      connectionString := value;
    }

    method SetTopicClientId(value: Option<string>)
      modifies this`topicClientId
      ensures topicClientId == value
    {
      topicClientId := value;
    }

    method SetPricingTier(value: Option<string>)
      modifies this`pricingTier
      ensures pricingTier == value
    {
      pricingTier := value;
    }

    method SetIdleTimeout(value: int32)
      modifies this`idleTimeout
      ensures idleTimeout == value
    {
      idleTimeout := value;
    }

    /**
     * Post-binding validation: a connection string with text is required first,
     * then a pricing tier that is one of the three tier names ignoring ASCII case.
     * A null pricing tier is dereferenced and fails with a NullPointerException.
     */
    method Validate() returns (r: Outcome)
      ensures r == Pass <==>
        HasText(connectionString) && pricingTier.Some? && LowerAscii(pricingTier.value) in PricingTiers
      ensures !HasText(connectionString) ==> r == Fail(IllegalArgument(ConnectionStringMessage))
      ensures HasText(connectionString) && pricingTier == None ==> r == Fail(NullPointer)
      ensures HasText(connectionString) && pricingTier.Some? && !MatchesPricingTierPattern(pricingTier.value)
        ==> r == Fail(IllegalArgument(PricingTierMessage))
    {
      if !HasText(connectionString) {
        return Fail(IllegalArgument(ConnectionStringMessage));
      }
      if pricingTier == None {
        return Fail(NullPointer);
      }
      PricingTierPatternIsCanonical(pricingTier.value);
      if !MatchesPricingTierPattern(pricingTier.value) {
        return Fail(IllegalArgument(PricingTierMessage));
      }
      return Pass;
    }
  }
}
