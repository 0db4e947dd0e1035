# Alert handlers, bitStringMatch and size-based log retention, in Dafny

This project models three pieces of the directory server's configuration-driven
component framework and proves properties of them.

- **Alert handler configuration manager** (`AlertHandlers`). The manager keeps a map
  from the DN of each enabled alert-handler configuration entry to its live handler.
  It keeps the server's set of registered alert handlers equal to the map's values.
  It answers the "is this add / change acceptable" queries with a dry run of the
  handler class, and accepts every delete. It applies adds, changes and deletes by storing and registering,
  or removing, deregistering and finalising, handlers. Loading a class by reflection is
  an oracle, `ClassLoader`, from a class name and a configuration to what the class
  does. Handlers are objects, so two loads never yield the same handler. The class
  invariant `Valid()` says three things. The registered set equals the map's values.
  No handler serves two entries. No registered handler has been finalised. Every
  operation preserves it.
- **bitStringMatch normalisation** (`BitStrings`). A value of the Bit String syntax
  (section 3.3.2 of RFC 4517; the matching rule is section 4.2.1) is upper-cased. It
  must then read quote, a run of `0`/`1`, quote, `B`. The syntax enforcement policy
  decides whether a bad value is rejected or passed through. The scan is proved against
  an independent statement of the syntax, `IsBitString`, and that statement against the
  RFC grammar `'` bits `'B`.
- **Size-based log retention** (`RetentionPolicies`). The policy holds a size limit that
  a configuration change replaces. `DeleteFiles` sorts the files in comparator order.
  It returns the shortest tail of that order whose deletion brings the total length
  back within the limit. It is proved against `IsShortestExcessTail`, and that
  predicate's meaning (what remains fits; the choice is unique) is proved separately.

Shared types (result codes, the result of applying a configuration change, messages
as tokens, `DirectoryException`) are in `ServerTypes`. `Option` and `Result` are in
`Wrappers`. A Java exception is an `Err` result.

## Model

| member | source | states |
|---|---|---|
| `AlertHandlers.JoinReasonsAppend` | opendj3-server-dev/src/server/org/opends/server/core/AlertHandlerConfigManager.java:405-415 | appending a reason to a non-empty list appends the separator and that reason to the joined text |
| `AlertHandlers.JoinReasonsLength` | opendj3-server-dev/src/server/org/opends/server/core/AlertHandlerConfigManager.java:405-415 | the length of the joined text is the total length of the reasons plus one separator's length for each pair of consecutive reasons |
| `AlertHandlers.JoinReasonsSplit` | opendj3-server-dev/src/server/org/opends/server/core/AlertHandlerConfigManager.java:405-415 | the joined text of a list is the joined text of any non-empty prefix, one separator, and the joined text of the non-empty rest, so each reason appears in order with exactly one separator between neighbours |
| `AlertHandlers.BuildReasonBuffer` | opendj3-server-dev/src/server/org/opends/server/core/AlertHandlerConfigManager.java:405-415 | the StringBuilder loop produces exactly the joined reasons (empty when there are none) |
| `AlertHandlers.LoadError` | opendj3-server-dev/src/server/org/opends/server/core/AlertHandlerConfigManager.java:374-431 | every load failure, a dry-run rejection included, is one INITIALIZATION_FAILED message naming the class and the DN; an unloadable class always fails; a full load never fails for acceptance reasons |
| `AlertHandlers.DryRunFailsIffRejected` | opendj3-server-dev/src/server/org/opends/server/core/AlertHandlerConfigManager.java:394-431 | a dry run fails iff the class cannot be loaded, its self-check throws, or its self-check says no; a thrown self-check's cause is the thrown exception; a rejection's cause is CONFIG_NOT_ACCEPTABLE for the DN with the joined reasons |
| `AlertHandlers.DryRunAndInstallIndependent` | opendj3-server-dev/src/server/org/opends/server/core/AlertHandlerConfigManager.java:387-431 | the dry run and the full load can disagree either way: there is a class whose self-check throws and which still installs, and one whose self-check accepts and which fails to initialise |
| `AlertHandlers.FullLoadIgnoresSelfCheck` | opendj3-server-dev/src/server/org/opends/server/core/AlertHandlerConfigManager.java:387-393 | for every two classes that load alike and whose initialisers fail alike, the full load gives the same outcome, whatever their self-checks do |
| `AlertHandlers.DryRunIgnoresInitialiser` | opendj3-server-dev/src/server/org/opends/server/core/AlertHandlerConfigManager.java:394-419 | for every two classes that load alike and whose self-checks throw or answer alike, the dry run gives the same outcome, whatever their initialisers do |
| `AlertHandlers.AlertHandlerConfigManager.constructor` | opendj3-server-dev/src/server/org/opends/server/core/AlertHandlerConfigManager.java:85-88 | a new manager has no handlers, nothing registered, and its invariant holds |
| `AlertHandlers.AlertHandlerConfigManager.LoadHandler` | opendj3-server-dev/src/server/org/opends/server/core/AlertHandlerConfigManager.java:374-431 | fails exactly with `LoadError`; on success returns a new, unfinalised handler of the named class |
| `AlertHandlers.AlertHandlerConfigManager.InitializeAlertHandlers` | opendj3-server-dev/src/server/org/opends/server/core/AlertHandlerConfigManager.java:103-140 | afterwards exactly the enabled entries whose handler loads have a new handler of their class; failing entries are skipped; earlier handlers are untouched; the invariant is kept |
| `AlertHandlers.AlertHandlerConfigManager.IsConfigurationAddAcceptable` | opendj3-server-dev/src/server/org/opends/server/core/AlertHandlerConfigManager.java:147-168 | acceptable iff disabled or the dry run succeeds; on rejection exactly the load error is appended to the reasons, otherwise they are unchanged |
| `AlertHandlers.AlertHandlerConfigManager.IsConfigurationChangeAcceptable` | opendj3-server-dev/src/server/org/opends/server/core/AlertHandlerConfigManager.java:257-278 | the same answer and reasons as for an add of that configuration |
| `AlertHandlers.AlertHandlerConfigManager.IsConfigurationDeleteAcceptable` | opendj3-server-dev/src/server/org/opends/server/core/AlertHandlerConfigManager.java:221-228 | a delete is always acceptable and adds no reason |
| `AlertHandlers.AlertHandlerConfigManager.ApplyConfigurationAdd` | opendj3-server-dev/src/server/org/opends/server/core/AlertHandlerConfigManager.java:175-214 | disabled: success, nothing changes; load fails: server error code and the one load error, nothing changes; load succeeds: success, the DN maps to a new handler of the class, which is registered; the invariant is kept |
| `AlertHandlers.AlertHandlerConfigManager.InstallHandler` | opendj3-server-dev/src/server/org/opends/server/core/AlertHandlerConfigManager.java:188-213 | the load-then-put-and-register tail shared by add and change (lines 332-353), with the two outcomes above |
| `AlertHandlers.AlertHandlerConfigManager.ApplyConfigurationDelete` | opendj3-server-dev/src/server/org/opends/server/core/AlertHandlerConfigManager.java:235-250 | always plain success; the DN is removed; its handler, if any, is deregistered and finalised; an absent DN changes nothing; the invariant is kept |
| `AlertHandlers.AlertHandlerConfigManager.ApplyConfigurationChange` | opendj3-server-dev/src/server/org/opends/server/core/AlertHandlerConfigManager.java:285-354 | disabled: the handler, if any, is removed, deregistered and finalised; enabled with a handler: nothing changes and admin action is required iff the class name differs from the running handler's; enabled without one: as an add; the invariant is kept |
| `BitStrings.AllNames` | opendj3-server-dev/src/server/org/opends/server/schema/BitStringEqualityMatchingRule.java:71-88 | the names of the rule are exactly its one common name |
| `BitStrings.UpperCase` | opendj3-server-dev/src/server/org/opends/server/schema/BitStringEqualityMatchingRule.java:149 | same length, each character upper-cased, no lower-case letter left |
| `BitStrings.FirstNonBit` | opendj3-server-dev/src/server/org/opends/server/schema/BitStringEqualityMatchingRule.java:166-179 | the scan returns the first position in range holding something other than `0`/`1`, or none when all are bits |
| `BitStrings.ReportInvalidSyntax` | opendj3-server-dev/src/server/org/opends/server/schema/BitStringEqualityMatchingRule.java:184-197 | fails with INVALID_ATTRIBUTE_SYNTAX and the message iff the policy is Reject; otherwise returns the upper-cased value |
| `BitStrings.NormalizeValue` | opendj3-server-dev/src/server/org/opends/server/schema/BitStringEqualityMatchingRule.java:146-182 | fails iff the policy is Reject and the upper-cased value is not a Bit String, always with INVALID_ATTRIBUTE_SYNTAX; any success is the upper-cased value |
| `BitStrings.TooShortReported` | opendj3-server-dev/src/server/org/opends/server/schema/BitStringEqualityMatchingRule.java:151-156 | under Reject a value shorter than 3 characters is reported as too short |
| `BitStrings.NotQuotedReported` | opendj3-server-dev/src/server/org/opends/server/schema/BitStringEqualityMatchingRule.java:158-164 | under Reject a long enough value not framed by quote, quote, `B` is reported as not quoted |
| `BitStrings.FirstInvalidBitReported` | opendj3-server-dev/src/server/org/opends/server/schema/BitStringEqualityMatchingRule.java:166-179 | under Reject a quoted value is reported with its first non-bit character |
| `BitStrings.TolerantPolicyPassesThrough` | opendj3-server-dev/src/server/org/opends/server/schema/BitStringEqualityMatchingRule.java:187-196 | under Warn or Accept every value normalises to its upper-cased form |
| `BitStrings.IsBitStringIsGrammar` | opendj3-server-dev/src/server/org/opends/server/schema/BitStringEqualityMatchingRule.java:151-179 | the three checks together accept exactly the strings `'` bits `'B` of the RFC grammar |
| `BitStrings.GrammarValueIsNormal` | opendj3-server-dev/src/server/org/opends/server/schema/BitStringEqualityMatchingRule.java:149-181 | every Bit String of the grammar is accepted under any policy and normalises to itself |
| `BitStrings.AcceptedValueIsGrammar` | opendj3-server-dev/src/server/org/opends/server/schema/BitStringEqualityMatchingRule.java:158-181 | a value accepted under Reject normalises to the Bit String of its own digits |
| `BitStrings.NormalizeIdempotent` | opendj3-server-dev/src/server/org/opends/server/schema/BitStringEqualityMatchingRule.java:149-181 | normalising a normalised value gives it back |
| `BitStrings.ExampleValues` | opendj3-server-dev/src/server/org/opends/server/schema/BitStringEqualityMatchingRule.java:149-181 | `'0101'b` normalises to `'0101'B`; the empty Bit String `''B` is accepted; `'0a'B` is reported with the upper-cased bit `A`; `'01'` is reported as not quoted; under Warn `1B` passes through |
| `RetentionPolicies.SortByComparator` | opendj3-server-dev/src/server/org/opends/server/loggers/SizeBasedRetentionPolicy.java:129-130 | the result is in comparator order and is a permutation of the files, with the same total length |
| `RetentionPolicies.SortByComparatorIsStable` | opendj3-server-dev/src/server/org/opends/server/loggers/SizeBasedRetentionPolicy.java:129-130 | the sort is stable like `Arrays.sort`: the files of any one rank keep their listing order |
| `RetentionPolicies.EqualRanksKeepListingOrder` | opendj3-server-dev/src/server/org/opends/server/loggers/SizeBasedRetentionPolicy.java:127-145 | two files of equal rank stay in listing order, so when one of them must go, the later-listed one is deleted |
| `RetentionPolicies.TotalLengthSplit` | opendj3-server-dev/src/server/org/opends/server/loggers/SizeBasedRetentionPolicy.java:114-118 | the total of the files is the total of any prefix plus the total of the rest |
| `RetentionPolicies.CoveringTailStart` | opendj3-server-dev/src/server/org/opends/server/loggers/SizeBasedRetentionPolicy.java:132-141 | the backward scan stops at a valid index whose tail covers the needed space, and no later index's tail covers it; it never runs past the first file |
| `RetentionPolicies.CoveringTailIsShortest` | opendj3-server-dev/src/server/org/opends/server/loggers/SizeBasedRetentionPolicy.java:127-145 | the tail from the index the scan stops at is the shortest tail covering the excess |
| `RetentionPolicies.RemainderFitsLimit` | opendj3-server-dev/src/server/org/opends/server/loggers/SizeBasedRetentionPolicy.java:127-141 | once the chosen tail is deleted, the remaining files total at most the limit |
| `RetentionPolicies.ShortestExcessTailUnique` | opendj3-server-dev/src/server/org/opends/server/loggers/SizeBasedRetentionPolicy.java:132-144 | at most one tail is the shortest one covering the excess, so the choice is determined |
| `RetentionPolicies.SizeBasedRetentionPolicy.constructor` | opendj3-server-dev/src/server/org/opends/server/loggers/SizeBasedRetentionPolicy.java:56-58 | a new policy has size 0 and no configuration |
| `RetentionPolicies.SizeBasedRetentionPolicy.InitializeLogRetentionPolicy` | opendj3-server-dev/src/server/org/opends/server/loggers/SizeBasedRetentionPolicy.java:63-71 | the size becomes the configured disk space and the configuration is kept |
| `RetentionPolicies.SizeBasedRetentionPolicy.IsConfigurationChangeAcceptable` | opendj3-server-dev/src/server/org/opends/server/loggers/SizeBasedRetentionPolicy.java:76-82 | every change is acceptable and adds no reason |
| `RetentionPolicies.SizeBasedRetentionPolicy.ApplyConfigurationChange` | opendj3-server-dev/src/server/org/opends/server/loggers/SizeBasedRetentionPolicy.java:87-99 | the size becomes the new disk space at once; the result is success without admin action or messages |
| `RetentionPolicies.SizeBasedRetentionPolicy.DeleteFiles` | opendj3-server-dev/src/server/org/opends/server/loggers/SizeBasedRetentionPolicy.java:104-146 | an unlistable directory gives the server error code with the listing error; otherwise empty when the files fit, else the non-empty tail in comparator order that covers the excess and no shorter tail of which does |

## Left out

- Reflection (`loadClass`, `newInstance`, `getMethod`, `invoke`) is the `ClassLoader` oracle. It gives what the class does for a configuration: it cannot be loaded, or its initialiser's failure, its self-check's failure, and otherwise its self-check's answer. Exception texts (`stackTraceToSingleLineString`) are opaque strings.
- Listener registration with the configuration framework (`addAlertHandlerAddListener`, `addChangeListener`, `addSizeLimitChangeListener`) and `ServerManagementContext` are not modelled. `InitializeAlertHandlers` takes the listed entries as a parameter.
- Logging (`logger.error`, `logger.trace`) is not modelled. The Warn and Accept policies therefore behave alike.
- Concurrency: the `ConcurrentHashMap` is a sequential `map`, and each operation runs alone.
- The server's alert-handler registry (`DirectoryServer.registerAlertHandler` / `deregisterAlertHandler`) is the manager's `registered` field. This manager is its only writer. The order in which the server keeps the handlers is not modelled.
- `DirectoryServer.getServerErrorResultCode()` is configurable in the server. The model fixes it to its default non-success code `Other`.
- AlertHandlers.AlertHandlerConfigManager.ApplyConfigurationAdd: requires that the entry's DN has no handler yet. The configuration framework delivers an add only for a new entry. For an existing DN the source's `put` would replace the handler and leave the old one registered.
- AlertHandlers.AlertHandlerConfigManager.InitializeAlertHandlers: requires distinct DNs that have no handler yet, as at server startup. It does not return the messages that the source logs for skipped entries.
- A handler built for a dry run is discarded without finalisation, as in the source. The model keeps no trace of it.
- The alert handler's own `finalizeAlertHandler` is modelled only by its `finalized` flag. Its exceptions are not modelled.
- Java's locale-sensitive `toUpperCase` is ASCII upper-casing. Characters whose upper case has another length (such as `ß`) are not modelled. The decoding of the value's bytes (`ByteSequence.toString`) is not modelled; values are strings.
- `getOID`, `getSyntaxOID` and `getDescription` of the matching rule are constants (`Oid`, `SyntaxOid`; no description).
- The file comparator is not part of this model. Its order is ascending `rank`, and `SortByComparator` is a stable sort by it, as `Arrays.sort` on objects is, so files of equal rank keep their listing order. `File.length()` and directory listing are the `LogFile` and `FileNamingPolicy` values.
- RetentionPolicies.SizeBasedRetentionPolicy.DeleteFiles: the order before `initializeLogRetentionPolicy` is not modelled. Until then the source's comparator is null, and `Arrays.sort` orders the files by path name; the model always sorts by rank. The server initialises a policy before it asks for files to delete.
- Positions in a value (`length()`, `charAt`) count Unicode characters, not Java's UTF-16 units. A value holding a character outside the Basic Multilingual Plane can therefore get a different message (too short instead of not quoted, or the whole character instead of a lone surrogate as the invalid bit). Whether a value is accepted, and its normalised form, are the same.
- `deleteFiles` works on sequences, not on Java arrays. `Arrays.sort` and `System.arraycopy` become a sorted copy and a slice.
- `long` overflow in the length sums is not modelled. Lengths and the size limit are unbounded naturals. A negative disk-space-used setting is not modelled either.
- `toString` methods are not modelled.
- The Swing cell renderer `SchemaElementComboBoxCellRenderer` is presentation code and is not part of this model.

## Notes on behaviour

- A change to an enabled entry that already has a handler leaves the running handler in place. It requires admin action only when the class name differs.
- Applying an add loads and initialises the handler directly, without a dry run first.
- A size-limit change takes effect at once, with no admin action.
