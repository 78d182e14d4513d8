# Azure Service Bus JMS configuration properties, modelled in Dafny

This project models `AzureServiceBusJMSProperties`, the Spring Boot configuration-properties
holder of the Azure Service Bus JMS auto-configuration (bound under the prefix
`spring.jms.servicebus`). It holds the connection string, the topic client id, the idle
timeout and the pricing tier. It also owns two groups of settings created with it:

- a `PrefetchPolicy`: one group-wide `all` value and four specific prefetch values;
- a `Listener`: reply pub/sub domain, reply QoS settings, subscription durable/shared flags
  and the container phase.

The model covers three behaviours.

- **Prefetch resolution.** `getAll` reads the stored group value clamped at 0, and the stored
  value itself is never clamped. Each specific getter returns its own value when positive and
  otherwise the clamped group value.
- **Validation after binding.** `validate` first requires a connection string that has text
  (Spring's `StringUtils.hasText`: non-null and not all `Character.isWhitespace`). It then
  requires a pricing tier that matches `(?i)premium|standard|basic` as a whole string, with
  ASCII case folding. A null pricing tier is dereferenced and fails with a
  NullPointerException.
- **Defaults and setters.** The idle timeout defaults to 1800000 ms, every prefetch value to
  0 and `subscriptionDurable` to true. Every setter stores its argument unchanged.

Files:

- `wrappers.dfy`: `Option`, used for every Java reference that may be null.
- `text.dfy` (module `SpringText`): `Character.isWhitespace`, `hasText`, ASCII lower-casing,
  and whole-string case-insensitive literal matching. It proves that such a match is the same
  as equality after lower-casing.
- `jms_properties.dfy` (module `ServiceBusJms`): Java `int` as `int32`, the validation
  outcome, the pricing-tier pattern, and the classes `PrefetchPolicy`, `Listener` and
  `AzureServiceBusJmsProperties`.

The Java objects are Dafny classes with the same fields. The two owned groups are `const`
fields, as they are `final` in Java. Each setter is a method whose `modifies` clause names only
its own field, so the frame itself says that nothing else changes. Plain getters
(`getConnectionString`, `getListener`, …) return a field unchanged; in the model they are the
public fields themselves. The getters that compute something (`getAll` and the four specific
prefetch getters) are functions that read the object. `validate` is a method that changes
nothing. It returns `Pass`, or `Fail` with the exception it would throw.

## Model

| member | source | states |
|---|---|---|
| `ServiceBusJms.Max` | sdk/spring/azure-spring-boot/src/main/java/com/azure/spring/autoconfigure/jms/AzureServiceBusJMSProperties.java:110 | `Math.max`: the result is at least both arguments and equals one of them |
| `ServiceBusJms.Resolve` | sdk/spring/azure-spring-boot/src/main/java/com/azure/spring/autoconfigure/jms/AzureServiceBusJMSProperties.java:120-122 | an effective prefetch value is never negative; a positive specific value wins whatever `all` is; otherwise the value is `all` clamped at 0; the result is positive exactly when the specific value or `all` is positive |
| `ServiceBusJms.ResolveIsIdempotent` | sdk/spring/azure-spring-boot/src/main/java/com/azure/spring/autoconfigure/jms/AzureServiceBusJMSProperties.java:120-122 | resolving an already effective value against the same `all` gives it back |
| `ServiceBusJms.PrefetchPolicy.constructor` | sdk/spring/azure-spring-boot/src/main/java/com/azure/spring/autoconfigure/jms/AzureServiceBusJMSProperties.java:99-107 | all five stored values start at 0, so `getAll` and all four specific getters read 0 |
| `ServiceBusJms.PrefetchPolicy.GetAll` | sdk/spring/azure-spring-boot/src/main/java/com/azure/spring/autoconfigure/jms/AzureServiceBusJMSProperties.java:109-111 | the group value as read is non-negative, at least the stored value, and equal to the stored value or to 0 |
| `ServiceBusJms.PrefetchPolicy.SetAll` | sdk/spring/azure-spring-boot/src/main/java/com/azure/spring/autoconfigure/jms/AzureServiceBusJMSProperties.java:113-115 | stores the argument unclamped and changes no other field; a negative argument then reads back as 0, any other one as itself |
| `ServiceBusJms.PrefetchPolicy.GetDurableTopicPrefetch` | sdk/spring/azure-spring-boot/src/main/java/com/azure/spring/autoconfigure/jms/AzureServiceBusJMSProperties.java:120-122 | non-negative; its own value when that is positive, otherwise `getAll()` |
| `ServiceBusJms.PrefetchPolicy.SetDurableTopicPrefetch` | sdk/spring/azure-spring-boot/src/main/java/com/azure/spring/autoconfigure/jms/AzureServiceBusJMSProperties.java:127-129 | stores the argument and changes no other field; a positive argument reads back as itself, any other one as `getAll()` |
| `ServiceBusJms.PrefetchPolicy.GetQueueBrowserPrefetch` | sdk/spring/azure-spring-boot/src/main/java/com/azure/spring/autoconfigure/jms/AzureServiceBusJMSProperties.java:135-137 | non-negative; its own value when that is positive, otherwise `getAll()` |
| `ServiceBusJms.PrefetchPolicy.SetQueueBrowserPrefetch` | sdk/spring/azure-spring-boot/src/main/java/com/azure/spring/autoconfigure/jms/AzureServiceBusJMSProperties.java:142-144 | stores the argument and changes no other field; a positive argument reads back as itself, any other one as `getAll()` |
| `ServiceBusJms.PrefetchPolicy.GetQueuePrefetch` | sdk/spring/azure-spring-boot/src/main/java/com/azure/spring/autoconfigure/jms/AzureServiceBusJMSProperties.java:149-151 | non-negative; its own value when that is positive, otherwise `getAll()` |
| `ServiceBusJms.PrefetchPolicy.SetQueuePrefetch` | sdk/spring/azure-spring-boot/src/main/java/com/azure/spring/autoconfigure/jms/AzureServiceBusJMSProperties.java:156-158 | stores the argument and changes no other field; a positive argument reads back as itself, any other one as `getAll()` |
| `ServiceBusJms.PrefetchPolicy.GetTopicPrefetch` | sdk/spring/azure-spring-boot/src/main/java/com/azure/spring/autoconfigure/jms/AzureServiceBusJMSProperties.java:163-165 | non-negative; its own value when that is positive, otherwise `getAll()` |
| `ServiceBusJms.PrefetchPolicy.SetTopicPrefetch` | sdk/spring/azure-spring-boot/src/main/java/com/azure/spring/autoconfigure/jms/AzureServiceBusJMSProperties.java:170-172 | stores the argument and changes no other field; a positive argument reads back as itself, any other one as `getAll()` |
| `ServiceBusJms.Listener.constructor` | sdk/spring/azure-spring-boot/src/main/java/com/azure/spring/autoconfigure/jms/AzureServiceBusJMSProperties.java:186-207 | a new listener group has `subscriptionDurable` true and every other setting null |
| `ServiceBusJms.Listener.SetReplyPubSubDomain` | sdk/spring/azure-spring-boot/src/main/java/com/azure/spring/autoconfigure/jms/AzureServiceBusJMSProperties.java:213-215 | stores the argument, null included, and changes no other field |
| `ServiceBusJms.Listener.SetReplyQosSettings` | sdk/spring/azure-spring-boot/src/main/java/com/azure/spring/autoconfigure/jms/AzureServiceBusJMSProperties.java:221-223 | stores the opaque QoS settings as given and changes no other field |
| `ServiceBusJms.Listener.SetSubscriptionDurable` | sdk/spring/azure-spring-boot/src/main/java/com/azure/spring/autoconfigure/jms/AzureServiceBusJMSProperties.java:229-231 | stores the argument, null included, and changes no other field |
| `ServiceBusJms.Listener.SetSubscriptionShared` | sdk/spring/azure-spring-boot/src/main/java/com/azure/spring/autoconfigure/jms/AzureServiceBusJMSProperties.java:237-239 | stores the argument, null included, and changes no other field |
| `ServiceBusJms.Listener.SetPhase` | sdk/spring/azure-spring-boot/src/main/java/com/azure/spring/autoconfigure/jms/AzureServiceBusJMSProperties.java:245-247 | stores the argument, null included, and changes no other field |
| `ServiceBusJms.AzureServiceBusJmsProperties.constructor` | sdk/spring/azure-spring-boot/src/main/java/com/azure/spring/autoconfigure/jms/AzureServiceBusJMSProperties.java:21-34 | connection string, client id and pricing tier start null; idle timeout starts at 1800000; the two owned groups are new objects holding their defaults (every prefetch getter reads 0, subscriptions durable) |
| `ServiceBusJms.AzureServiceBusJmsProperties.SetConnectionString` | sdk/spring/azure-spring-boot/src/main/java/com/azure/spring/autoconfigure/jms/AzureServiceBusJMSProperties.java:40-42 | stores the argument, null included, and changes no other field |
| `ServiceBusJms.AzureServiceBusJmsProperties.SetTopicClientId` | sdk/spring/azure-spring-boot/src/main/java/com/azure/spring/autoconfigure/jms/AzureServiceBusJMSProperties.java:48-50 | stores the argument, null included, and changes no other field |
| `ServiceBusJms.AzureServiceBusJmsProperties.SetPricingTier` | sdk/spring/azure-spring-boot/src/main/java/com/azure/spring/autoconfigure/jms/AzureServiceBusJMSProperties.java:56-58 | stores the argument without checking it and changes no other field |
| `ServiceBusJms.AzureServiceBusJmsProperties.SetIdleTimeout` | sdk/spring/azure-spring-boot/src/main/java/com/azure/spring/autoconfigure/jms/AzureServiceBusJMSProperties.java:64-66 | stores the argument without bounds and changes no other field |
| `ServiceBusJms.AzureServiceBusJmsProperties.Validate` | sdk/spring/azure-spring-boot/src/main/java/com/azure/spring/autoconfigure/jms/AzureServiceBusJMSProperties.java:83-91 | changes nothing. It passes exactly when the connection string has text and the pricing tier is non-null and lower-cases to `premium`, `standard` or `basic`. A connection string without text fails first, with the connection-string message. After that, a null tier fails with a null dereference and a tier outside the pattern fails with the pricing-tier message |
| `SpringText.HasText` | sdk/spring/azure-spring-boot/src/main/java/com/azure/spring/autoconfigure/jms/AzureServiceBusJMSProperties.java:84 | a string with text is non-null and non-empty |
| `SpringText.HasTextIffNonBlank` | sdk/spring/azure-spring-boot/src/main/java/com/azure/spring/autoconfigure/jms/AzureServiceBusJMSProperties.java:84-86 | null has no text; a non-null string has text exactly when it is not all whitespace (so the empty string has none) |
| `SpringText.ToLowerAscii` | sdk/spring/azure-spring-boot/src/main/java/com/azure/spring/autoconfigure/jms/AzureServiceBusJMSProperties.java:88 | ASCII capitals map to the letter 32 code points higher; every other character, non-ASCII included, is kept |
| `SpringText.LowerAscii` | sdk/spring/azure-spring-boot/src/main/java/com/azure/spring/autoconfigure/jms/AzureServiceBusJMSProperties.java:88 | keeps the length and lower-cases each character in place |
| `SpringText.LowerAsciiKeepsLowerCase` | sdk/spring/azure-spring-boot/src/main/java/com/azure/spring/autoconfigure/jms/AzureServiceBusJMSProperties.java:88 | a string without ASCII capitals is its own lower-casing |
| `SpringText.EqualsIgnoreAsciiCaseIffLowerEqual` | sdk/spring/azure-spring-boot/src/main/java/com/azure/spring/autoconfigure/jms/AzureServiceBusJMSProperties.java:88 | a whole-string, letter-by-letter match ignoring ASCII case holds exactly when both strings lower-case to the same string |
| `SpringText.EqualsIgnoreAsciiCaseOfLowerWord` | sdk/spring/azure-spring-boot/src/main/java/com/azure/spring/autoconfigure/jms/AzureServiceBusJMSProperties.java:88 | against a lower-case literal such as `premium`, matching ignoring case means lower-casing to that literal |
| `ServiceBusJms.PricingTierPatternIsCanonical` | sdk/spring/azure-spring-boot/src/main/java/com/azure/spring/autoconfigure/jms/AzureServiceBusJMSProperties.java:88-90 | the tier pattern matches exactly when the tier's ASCII lower-casing is one of `premium`, `standard`, `basic` |
| `ServiceBusJms.PricingTierIsCaseInsensitive` | sdk/spring/azure-spring-boot/src/main/java/com/azure/spring/autoconfigure/jms/AzureServiceBusJMSProperties.java:88 | two tiers that differ only in ASCII case are both accepted or both rejected |
| `ServiceBusJms.PricingTierAcceptsCapitalised` | sdk/spring/azure-spring-boot/src/main/java/com/azure/spring/autoconfigure/jms/AzureServiceBusJMSProperties.java:88 | `Premium` is accepted |
| `ServiceBusJms.PricingTierAcceptsUpperCase` | sdk/spring/azure-spring-boot/src/main/java/com/azure/spring/autoconfigure/jms/AzureServiceBusJMSProperties.java:88 | `STANDARD` is accepted |
| `ServiceBusJms.PricingTierRejectsOtherStrings` | sdk/spring/azure-spring-boot/src/main/java/com/azure/spring/autoconfigure/jms/AzureServiceBusJMSProperties.java:88-90 | the match covers the whole string, so `premiumx`, ` basic`, the empty string and `gold` are rejected |

## Left out

- `ReadmeSamples.java` (the schema-registry sample) is not part of this model. It only builds network clients, calls a remote service and prints.
- Spring's property binding, `@ConfigurationProperties`, `@Validated`, `@PostConstruct` and `@SuppressFBWarnings` are not modelled. `Validate` is an explicit call that the framework would make once after binding.
- Spring's `QosSettings` is a type parameter of `Listener`: an opaque value that is only stored and handed back.
- The regular-expression engine is not modelled in general. Only the fixed pattern of the tier check is modelled, as a whole-string ASCII case-insensitive match against three literals.
- Strings are sequences of Unicode scalar values, where Java strings are UTF-16 code units. Every character that `Character.isWhitespace` accepts lies in the Basic Multilingual Plane, so `HasText` gives the same answer for any string without unpaired surrogates.
- `SpringText.IsWhitespace` follows `Character.isWhitespace` of Java 9 and later. Java 8 (Unicode 6.2) also counted U+180E MONGOLIAN VOWEL SEPARATOR as whitespace.
- Exceptions are returned as `Fail` values rather than thrown. The NullPointerException of a null tier carries no message in the model.
