# CDAP request authentication, OAuth credential service, error-log classification, data-quality mapping and field lineage — a Dafny model

This project models five pieces of CDAP and proves properties of them.

- **AuthenticationChannelHandler** is a Netty handler. For every HTTP request it:
  - resets the request-scoped `SecurityRequestContext`;
  - installs sentinel identities when internal authentication is on;
  - reads the user-id, user-ip and `"<type> <value>"` authorization headers;
  - after downstream processing, moves the request's audit-log queue into the channel's `AUDIT_LOG_QUEUE` attribute.

  `write` and `close` publish that attribute to the audit-log writer and clear it. `exceptionCaught` answers 401 and closes the connection.
- **OAuthHandler** is the client side of two OAuth 2.0 grants: the authorization-code grant (section 4.1.3 of RFC 6749) and the refresh-token grant (section 6 of RFC 6749). It also covers:
  - the authorization URL (section 4.1.1 of RFC 6749, written without percent-encoding);
  - provider registration and the secure store of providers and refresh tokens;
  - the validity check;
  - the mapping of every failure to an HTTP status, with 500s shown only as "Internal error".
- **ErrorLogsClassifier.classify** walks the log events and each event's chain of causes. It keeps one response per failed stage, where a `WrappedStageException` gives way to any later provider exception. Responses without a stage go into a set.
- **DataQualityApp** covers:
  - the checks and defaults of its configuration;
  - its cron schedule;
  - the rule by which `AggregationMapper.map` selects the record fields it writes.
- **FieldReadOperation** is an immutable lineage value. It always has type READ and keeps its own copy of the output fields. Its `equals` compares the fields structurally.

How Java is modelled:
- Java `null` is `None`.
- A thrown exception is the `Failure` of a `Result`.
- A string is `seq<char>`. Dafny's `char` is a Unicode scalar value, while a Java `String` is UTF-16, so for text with supplementary characters the model's positions (`IndexOf`, slices) differ from Java's indices. The model is consistent within itself.
- Java's `trim`, `indexOf`, `Integer.toString` and `Strings.isNullOrEmpty` are written out in `JavaStrings.dfy`, with lemmas of their own: a decimal round trip and split-of-join.

Operations that change state are methods of classes. Each one is proved against a function over value states:
- the security context and the channel (`AuthenticationChannel.dfy`);
- the OAuth store, the responder and the handler (`OAuthService.dfy`, against `OAuth.dfy`);
- the `classify` loops (`ErrorLogs.Classify`, against `Fold`);
- the mapper (`DataQuality.AggregationMapper`, against `MapOutput`).

Where the code admits several readings, the model follows the code:
- A network failure during a validity check yields 500. It does not report the credential as invalid.
- `publishAuditLogQueue` tests only that the attribute is set. An empty queue is published too.
- The queue is handed to the channel when a read finishes and is published by the next `write` or `close`. A response written while a read is still being processed therefore publishes the previous read's queue (the `ChannelRead` contract states this).
- The split index of the authorization header is found in the trimmed header but applied to the untrimmed one. A header with leading white space therefore yields a type name that starts with white space, and is rejected as an unknown type (`LeadingBlankBreaksTypeName`).

## Model

| member | source | states |
|---|---|---|
| JavaStrings.Trim | cdap-common/src/main/java/io/cdap/cdap/common/http/AuthenticationChannelHandler.java:106 | `String.trim`: the result is the infix of the input with every leading and trailing character at or below ' ' removed, and it neither starts nor ends with such a character |
| JavaStrings.IndexOf | cdap-common/src/main/java/io/cdap/cdap/common/http/AuthenticationChannelHandler.java:106 | `indexOf`: -1 exactly when the character is absent, otherwise its first position |
| JavaStrings.IntToStringRoundTrip | cdap-app-templates/cdap-dq/src/main/java/co/cask/cdap/dq/DataQualityApp.java:131 | the decimal text of an int is an integer literal that parses back to the same int |
| AuthenticationChannel.ParseIdentity | cdap-common/src/main/java/io/cdap/cdap/common/http/AuthenticationChannelHandler.java:81-131 | sentinel or null defaults by the internal-auth flag; a present user-id or user-ip header overrides its default; no space after trimming is an error only with internal auth on and otherwise keeps the default credential; an unknown type is always an error naming the type; a known type gives that type with the trimmed remainder as value |
| AuthenticationChannel.TypeNameIsFirstWord | cdap-common/src/main/java/io/cdap/cdap/common/http/AuthenticationChannelHandler.java:106-113 | without leading white space, the split index is the header's first space and the type name is the text before it |
| AuthenticationChannel.LeadingBlankBreaksTypeName | cdap-common/src/main/java/io/cdap/cdap/common/http/AuthenticationChannelHandler.java:106-123 | with leading white space, the type name is cut from the untrimmed header and begins with white space, so the read fails with an unknown credential type |
| AuthenticationChannel.LeadingBlankExample | cdap-common/src/main/java/io/cdap/cdap/common/http/AuthenticationChannelHandler.java:106-113 | for " X y" the split index is 1 and the type name is " " |
| AuthenticationChannel.SecurityRequestContext.constructor | cdap-common/src/main/java/io/cdap/cdap/common/http/AuthenticationChannelHandler.java:74 | a fresh context is in the reset state |
| AuthenticationChannel.SecurityRequestContext.Reset | cdap-common/src/main/java/io/cdap/cdap/common/http/AuthenticationChannelHandler.java:74 | after reset, no user id, credential or ip, and an empty audit queue |
| AuthenticationChannel.SecurityRequestContext.SetIdentity | cdap-common/src/main/java/io/cdap/cdap/common/http/AuthenticationChannelHandler.java:129-131 | the context holds exactly the given identity, and the audit queue is unchanged |
| AuthenticationChannel.SecurityRequestContext.AddAuditLogContexts | cdap-common/src/main/java/io/cdap/cdap/common/http/AuthenticationChannelHandler.java:135 | downstream processing appends its audit events to the queue and leaves the identity alone |
| AuthenticationChannel.AuditLogWriter.constructor | cdap-common/src/main/java/io/cdap/cdap/common/http/AuthenticationChannelHandler.java:59 | a new writer has published nothing |
| AuthenticationChannel.Channel.constructor | cdap-common/src/main/java/io/cdap/cdap/common/http/AuthenticationChannelHandler.java:139-140 | a new connection is open, has written nothing, and its AUDIT_LOG_QUEUE attribute is unset |
| AuthenticationChannel.AuditLogWriter.Publish | cdap-common/src/main/java/io/cdap/cdap/common/http/AuthenticationChannelHandler.java:182 | the queue is appended to the writer's record of published queues |
| AuthenticationChannel.AuthenticationChannelHandler.constructor | cdap-common/src/main/java/io/cdap/cdap/common/http/AuthenticationChannelHandler.java:61-66 | the handler keeps both flags and the audit-log writer it is given |
| AuthenticationChannel.AuthenticationChannelHandler.PublishAuditLogQueue | cdap-common/src/main/java/io/cdap/cdap/common/http/AuthenticationChannelHandler.java:179-185 | with auditing on and the attribute set (even to an empty queue), the stored queue is published once and the attribute cleared; otherwise the writer and the attribute are unchanged |
| AuthenticationChannel.AuthenticationChannelHandler.Write | cdap-common/src/main/java/io/cdap/cdap/common/http/AuthenticationChannelHandler.java:150-153 | the publish step, then the response is written; the channel stays open |
| AuthenticationChannel.AuthenticationChannelHandler.Close | cdap-common/src/main/java/io/cdap/cdap/common/http/AuthenticationChannelHandler.java:159-162 | the publish step, then the channel is closed; nothing is written |
| AuthenticationChannel.AuthenticationChannelHandler.ChannelRead | cdap-common/src/main/java/io/cdap/cdap/common/http/AuthenticationChannelHandler.java:73-143 | the context ends reset; an authentication error leaves the channel and the writer unchanged; otherwise downstream sees the identity of this message alone (none for a chunk), and the attribute then holds this read's queue, overwriting what it held |
| AuthenticationChannel.AuthenticationChannelHandler.ExceptionCaught | cdap-common/src/main/java/io/cdap/cdap/common/http/AuthenticationChannelHandler.java:165-173 | a 401 with content length 0 and no keep-alive is written, and the channel is closed; the pending queue is published once, by the write |
| AuthenticationChannel.AuthenticationChannelHandler.Receive | cdap-common/src/main/java/io/cdap/cdap/common/http/AuthenticationChannelHandler.java:105-173 | a read that fails authentication ends in the 401 of `exceptionCaught` and a closed connection |
| AuthenticationChannel.ConsecutiveReads | cdap-common/src/main/java/io/cdap/cdap/common/http/AuthenticationChannelHandler.java:134-185 | the first read is forwarded, and what the second hands downstream depends only on its own message; a response of the first read publishes the queue stored before it, and a response of the second publishes the first read's queue; the attribute ends with the last forwarded read's queue, and the context is reset |
| AuthenticationChannel.WriteThenClose | cdap-common/src/main/java/io/cdap/cdap/common/http/AuthenticationChannelHandler.java:179-185 | a write followed by a close publishes a stored queue at most once; with auditing off, nothing is published and the attribute is never cleared |
| OAuth.Respond | cdap-app-templates/cdap-etl/cdap-data-pipeline-base/src/main/java/io/cdap/cdap/datapipeline/service/OAuthHandler.java:380-387 | the status is kept; a 500 is sent as "Internal error", and any other status with its own message |
| OAuth.GetProvider | cdap-app-templates/cdap-etl/cdap-data-pipeline-base/src/main/java/io/cdap/cdap/datapipeline/service/OAuthHandler.java:341-352 | the stored provider; 404 "Unknown OAuth provider: <name>" when absent; 500 on a store read failure |
| OAuth.GetRefreshToken | cdap-app-templates/cdap-etl/cdap-data-pipeline-base/src/main/java/io/cdap/cdap/datapipeline/service/OAuthHandler.java:354-365 | the token stored under (provider, credential id); 404 "Unknown OAuth credential: <id>" when absent; 500 on a store read failure |
| OAuth.WriteProvider | cdap-app-templates/cdap-etl/cdap-data-pipeline-base/src/main/java/io/cdap/cdap/datapipeline/service/OAuthHandler.java:136-145 | succeeds exactly when the store can be written, and then changes just that provider's entry; fails with 500 "Failed to write to OAuth store" otherwise |
| OAuth.WriteRefreshToken | cdap-app-templates/cdap-etl/cdap-data-pipeline-base/src/main/java/io/cdap/cdap/datapipeline/service/OAuthHandler.java:210-220 | succeeds exactly when the store can be written, and then changes just the (provider, credential id) entry; fails with 500 "Failed to write refresh token" otherwise |
| OAuth.QuerySeparator | cdap-app-templates/cdap-etl/cdap-data-pipeline-base/src/main/java/io/cdap/cdap/datapipeline/service/OAuthHandler.java:85-92 | "?" without a '?' in the login URL; "&" with one, unless the URL ends in '&', in which case nothing |
| OAuth.RedirectParameter | cdap-app-templates/cdap-etl/cdap-data-pipeline-base/src/main/java/io/cdap/cdap/datapipeline/service/OAuthHandler.java:95-97 | a null or empty redirect_uri falls back to redirect_url; otherwise redirect_uri is used |
| OAuth.SeparatorOpensQuery | cdap-app-templates/cdap-etl/cdap-data-pipeline-base/src/main/java/io/cdap/cdap/datapipeline/service/OAuthHandler.java:85-92 | the login URL plus separator holds a '?', ends in '?' or '&', and is at most one character longer |
| OAuth.AuthorizationURLParameters | cdap-app-templates/cdap-etl/cdap-data-pipeline-base/src/main/java/io/cdap/cdap/datapipeline/service/OAuthHandler.java:85-101 | the URL starts with the login URL, and after the separator comes exactly client_id=<id> then redirect_uri=<uri> (null printed as "null"), provided neither holds an '&' |
| OAuth.QuerySeparatorExamples | cdap-app-templates/cdap-etl/cdap-data-pipeline-base/src/main/java/io/cdap/cdap/datapipeline/service/OAuthHandler.java:87-91 | the three cases of the separator on concrete login URLs |
| OAuth.FormRoundTrip | cdap-app-templates/cdap-etl/cdap-data-pipeline-base/src/main/java/io/cdap/cdap/datapipeline/service/OAuthHandler.java:315-317 | decoding key=value pieces joined by '&' gives the pairs back in order, when no key holds '=' and nothing holds '&' |
| OAuth.RefreshTokenBodyParameters | cdap-app-templates/cdap-etl/cdap-data-pipeline-base/src/main/java/io/cdap/cdap/datapipeline/service/OAuthHandler.java:315-317 | the code-grant body decodes to exactly code, redirect_uri, client_id, client_secret, grant_type=authorization_code, in that order |
| OAuth.AccessTokenBodyParameters | cdap-app-templates/cdap-etl/cdap-data-pipeline-base/src/main/java/io/cdap/cdap/datapipeline/service/OAuthHandler.java:330-334 | the refresh-grant body decodes to exactly grant_type=refresh_token, client_id, client_secret, refresh_token, in that order |
| OAuth.RefreshTokenRequest | cdap-app-templates/cdap-etl/cdap-data-pipeline-base/src/main/java/io/cdap/cdap/datapipeline/service/OAuthHandler.java:310-323 | a POST to the token URL with the code-grant body and the form Content-Type; a malformed URL is checked first and gives 500 "Malformed URL"; missing client credentials then escape as a NullPointerException |
| OAuth.AccessTokenRequest | cdap-app-templates/cdap-etl/cdap-data-pipeline-base/src/main/java/io/cdap/cdap/datapipeline/service/OAuthHandler.java:325-339 | a POST to the token URL with the refresh-grant body and no Content-Type; the same two failures in the same order |
| OAuth.ExchangeFailureMapping | cdap-app-templates/cdap-etl/cdap-data-pipeline-base/src/main/java/io/cdap/cdap/datapipeline/service/OAuthHandler.java:176-264 | for both grants: success exactly for a 200 whose body parses and holds a non-empty token; a null body escapes; an IO failure or a bad 200 body is a 500, and a reply other than 200 carries the provider's own status |
| OAuth.ValidityAgreesWithAccessToken | cdap-app-templates/cdap-etl/cdap-data-pipeline-base/src/main/java/io/cdap/cdap/datapipeline/service/OAuthHandler.java:295-308 | `checkCredIsValid` is true exactly when the same reply would give an access token; a reply other than 200 is "not valid"; an unparsable 200 is a 500 for both |
| OAuth.CredentialRequestFields | cdap-app-templates/cdap-etl/cdap-data-pipeline-base/src/main/java/io/cdap/cdap/datapipeline/service/OAuthHandler.java:159-172 | invalid JSON is a 400; a missing or empty one-time code is a 400, checked before the redirect URI, which is a 400 next; otherwise the two values |
| OAuth.ProviderFromRequest | cdap-app-templates/cdap-etl/cdap-data-pipeline-base/src/main/java/io/cdap/cdap/datapipeline/service/OAuthHandler.java:113-143 | every failure is a 400; success exactly for a document with two well-formed URLs and, without reuse, both client fields; with reuse the provider carries no credentials |
| OAuth.CredentialChecksComeFirst | cdap-app-templates/cdap-etl/cdap-data-pipeline-base/src/main/java/io/cdap/cdap/datapipeline/service/OAuthHandler.java:159-174 | a missing code or redirect URI gives the same 400 whatever the store holds, sends no request and leaves the store alone |
| OAuth.StoreOnlyAfterSuccessfulExchange | cdap-app-templates/cdap-etl/cdap-data-pipeline-base/src/main/java/io/cdap/cdap/datapipeline/service/OAuthHandler.java:176-222 | the store changes only when the answer is 200; the answer is 200 exactly when the body, provider, request, reply and write all succeed; the stored token is the reply's, with the request's redirect URI |
| OAuth.ReadsLeaveStoreAlone | cdap-app-templates/cdap-etl/cdap-data-pipeline-base/src/main/java/io/cdap/cdap/datapipeline/service/OAuthHandler.java:230-293 | fetching an access token and checking validity never change the store |
| OAuth.ValidityFailureModes | cdap-app-templates/cdap-etl/cdap-data-pipeline-base/src/main/java/io/cdap/cdap/datapipeline/service/OAuthHandler.java:282-297 | a network failure during the validity check is a 500 "Internal error"; a reply other than 200 is "not valid" |
| OAuth.ReuseKeepsClientCredentials | cdap-app-templates/cdap-etl/cdap-data-pipeline-base/src/main/java/io/cdap/cdap/datapipeline/service/OAuthHandler.java:123-136 | under the `StoredProvider` assumption about the store: registering with credentials and then with reuse keeps the first credentials and takes the new login URL |
| OAuth.CredentialThenAccessToken | cdap-app-templates/cdap-etl/cdap-data-pipeline-base/src/main/java/io/cdap/cdap/datapipeline/service/OAuthHandler.java:154-271 | after a successful code exchange the refresh token is stored, and the next fetch sends it in the refresh-grant body and answers with the reply's access token |
| OAuthService.OAuthStore.ReadProvider | cdap-app-templates/cdap-etl/cdap-data-pipeline-base/src/main/java/io/cdap/cdap/datapipeline/service/OAuthHandler.java:343 | the stored provider or none; fails exactly when reads fail |
| OAuthService.OAuthStore.ReadRefreshToken | cdap-app-templates/cdap-etl/cdap-data-pipeline-base/src/main/java/io/cdap/cdap/datapipeline/service/OAuthHandler.java:356 | the stored token or none; fails exactly when reads fail |
| OAuthService.OAuthStore.WriteProvider | cdap-app-templates/cdap-etl/cdap-data-pipeline-base/src/main/java/io/cdap/cdap/datapipeline/service/OAuthHandler.java:136 | the new state is `OAuth.WriteProvider`'s, or unchanged when the write fails |
| OAuthService.OAuthStore.WriteRefreshToken | cdap-app-templates/cdap-etl/cdap-data-pipeline-base/src/main/java/io/cdap/cdap/datapipeline/service/OAuthHandler.java:215 | the new state is `OAuth.WriteRefreshToken`'s, or unchanged when the write fails |
| OAuthService.OAuthStore.constructor | cdap-app-templates/cdap-etl/cdap-data-pipeline-base/src/main/java/io/cdap/cdap/datapipeline/service/OAuthHandler.java:341-365 | the store starts in the given state |
| OAuthService.Responder.Send | cdap-app-templates/cdap-etl/cdap-data-pipeline-base/src/main/java/io/cdap/cdap/datapipeline/service/OAuthHandler.java:380-387 | the response is appended to what the responder has sent |
| OAuthService.OAuthHandler.constructor | cdap-app-templates/cdap-etl/cdap-data-pipeline-base/src/main/java/io/cdap/cdap/datapipeline/service/OAuthHandler.java:78-105 | the handler keeps the store and URL parser it is given |
| OAuthService.OAuthHandler.GetProvider | cdap-app-templates/cdap-etl/cdap-data-pipeline-base/src/main/java/io/cdap/cdap/datapipeline/service/OAuthHandler.java:341-352 | the method's result is `OAuth.GetProvider` of the store's state |
| OAuthService.OAuthHandler.GetRefreshToken | cdap-app-templates/cdap-etl/cdap-data-pipeline-base/src/main/java/io/cdap/cdap/datapipeline/service/OAuthHandler.java:354-365 | the method's result is `OAuth.GetRefreshToken` of the store's state |
| OAuthService.OAuthHandler.GetAuthURL | cdap-app-templates/cdap-etl/cdap-data-pipeline-base/src/main/java/io/cdap/cdap/datapipeline/service/OAuthHandler.java:78-105 | exactly one response is sent: the authorization URL, or the provider lookup's error; a provider without credentials escapes |
| OAuthService.OAuthHandler.PutOAuthProvider | cdap-app-templates/cdap-etl/cdap-data-pipeline-base/src/main/java/io/cdap/cdap/datapipeline/service/OAuthHandler.java:109-150 | the new store state and the single response are those of `PutOAuthProviderOutcome` |
| OAuthService.OAuthHandler.PutOAuthCredential | cdap-app-templates/cdap-etl/cdap-data-pipeline-base/src/main/java/io/cdap/cdap/datapipeline/service/OAuthHandler.java:154-226 | the new store state, the token request sent and the single response are those of `PutOAuthCredentialOutcome` |
| OAuthService.OAuthHandler.GetOAuthCredential | cdap-app-templates/cdap-etl/cdap-data-pipeline-base/src/main/java/io/cdap/cdap/datapipeline/service/OAuthHandler.java:230-271 | the store is unchanged; the request sent and the response are those of `GetOAuthCredentialOutcome` |
| OAuthService.OAuthHandler.GetOAuthCredentialValidity | cdap-app-templates/cdap-etl/cdap-data-pipeline-base/src/main/java/io/cdap/cdap/datapipeline/service/OAuthHandler.java:275-293 | the store is unchanged; the request sent and the response are those of `ValidityOutcome` |
| OAuthService.RegisterThenFetch | cdap-app-templates/cdap-etl/cdap-data-pipeline-base/src/main/java/io/cdap/cdap/datapipeline/service/OAuthHandler.java:109-271 | register a provider, exchange a code, fetch a token: three responses, the last carrying the access token, and the fetch sends the stored refresh token with the registered credentials |
| ErrorLogs.ProviderInstanceCases | cdap-watchdog/src/main/java/io/cdap/cdap/logging/ErrorLogsClassifier.java:54-74 | the allowlisted Dataproc exception always counts; any other class counts exactly when it loads and is a FailureDetailsProvider |
| ErrorLogs.GetClassificationResponse | cdap-watchdog/src/main/java/io/cdap/cdap/logging/ErrorLogsClassifier.java:125-141 | the MDC tags and throwable fields are copied over; an absent error type reads as UNKNOWN, and an absent dependency as "false" |
| ErrorLogs.ResponseFor | cdap-watchdog/src/main/java/io/cdap/cdap/logging/ErrorLogsClassifier.java:106-115 | a stageless response keeps the raw category; a staged one has `<category>-'<stage>'` (null printed as "null") |
| ErrorLogs.Classify | cdap-watchdog/src/main/java/io/cdap/cdap/logging/ErrorLogsClassifier.java:82-100 | the nested loops produce all map values followed by all set elements of the fold over the contributing throwables |
| ErrorLogs.ChainContributionsExactly | cdap-watchdog/src/main/java/io/cdap/cdap/logging/ErrorLogsClassifier.java:90-95 | a throwable of one event's cause chain contributes exactly when its class provides failure details |
| ErrorLogs.ContributionsExactly | cdap-watchdog/src/main/java/io/cdap/cdap/logging/ErrorLogsClassifier.java:85-96 | a contribution comes from some event's chain, with that event's MDC, exactly when its class provides failure details |
| ErrorLogs.SetIsStagelessResponses | cdap-watchdog/src/main/java/io/cdap/cdap/logging/ErrorLogsClassifier.java:106-111 | the set holds exactly the responses of the contributions without a stage |
| ErrorLogs.PreferredAppend | cdap-watchdog/src/main/java/io/cdap/cdap/logging/ErrorLogsClassifier.java:114-122 | one more response for a stage becomes the preferred one unless a response that is not wrapped is already preferred |
| ErrorLogs.PopulateStage | cdap-watchdog/src/main/java/io/cdap/cdap/logging/ErrorLogsClassifier.java:113-122 | one contribution sets its stage's entry, keeping a stored response that is not wrapped, and leaves every other stage's entry as it was |
| ErrorLogs.MapHoldsPreferred | cdap-watchdog/src/main/java/io/cdap/cdap/logging/ErrorLogsClassifier.java:113-122 | a stage has an entry exactly when it had a response, and the entry is its first response that is not a WrappedStageException, or its last when all are |
| ErrorLogs.UnwrappedIsFinal | cdap-watchdog/src/main/java/io/cdap/cdap/logging/ErrorLogsClassifier.java:117-122 | once a stage holds a response that is not wrapped, no later event changes it |
| ErrorLogs.StageResponsesWellFormed | cdap-watchdog/src/main/java/io/cdap/cdap/logging/ErrorLogsClassifier.java:113-115 | every response recorded for a stage names that stage and comes from a staged contribution |
| ErrorLogs.FirstUnwrapped | cdap-watchdog/src/main/java/io/cdap/cdap/logging/ErrorLogsClassifier.java:117-122 | the position of a stage's first response that is not a WrappedStageException: all before it are wrapped |
| ErrorLogs.MapEntriesWellFormed | cdap-watchdog/src/main/java/io/cdap/cdap/logging/ErrorLogsClassifier.java:113-115 | each map entry carries its own stage name and the category `<category>-'<stage>'`, and comes from a contribution |
| ErrorLogs.MapAndSetDisjoint | cdap-watchdog/src/main/java/io/cdap/cdap/logging/ErrorLogsClassifier.java:106-115 | no response is both a map value and a set element |
| ErrorLogs.ResponsesComeFromProviders | cdap-watchdog/src/main/java/io/cdap/cdap/logging/ErrorLogsClassifier.java:85-96 | every reported response names a class that provides failure details |
| ErrorLogs.WrappedGivesWay | cdap-watchdog/src/main/java/io/cdap/cdap/logging/ErrorLogsClassifier.java:117-122 | on one stage, a WrappedStageException followed by another provider exception leaves the second, and a third does not replace it |
| DataQuality.NewConfig | cdap-app-templates/cdap-dq/src/main/java/co/cask/cdap/dq/DataQualityApp.java:102-116 | accepted exactly when minutes > 0, the source is present, and name, id and dataset name are non-empty; the first failing check decides the exception (IllegalArgument, or NullPointer for a null source) |
| DataQuality.DefaultConfigPassesChecks | cdap-app-templates/cdap-dq/src/main/java/co/cask/cdap/dq/DataQualityApp.java:92-100 | the default configuration (5 minutes, `dataQuality`, content_length to DiscreteValuesHistogram, a 5m stream source) passes the checked constructor |
| DataQuality.DefaultWorkflowSchedule | cdap-app-templates/cdap-dq/src/main/java/co/cask/cdap/dq/DataQualityApp.java:131-134 | the default schedule is "*/5 * * * *", with the description "Schedule execution every5 min" |
| DataQuality.NumeralHasNoSpace | cdap-app-templates/cdap-dq/src/main/java/co/cask/cdap/dq/DataQualityApp.java:131 | the decimal text of the minutes holds no space, so it cannot add a cron field |
| DataQuality.CronScheduleFields | cdap-app-templates/cdap-dq/src/main/java/co/cask/cdap/dq/DataQualityApp.java:131 | the cron entry has five space-separated fields, a step of the minutes followed by four '*', and the step reads back as the minutes |
| DataQuality.GetOutputValue | cdap-app-templates/cdap-dq/src/main/java/co/cask/cdap/dq/DataQualityApp.java:226-254 | null exactly for a type outside the seven supported ones; for a supported type, a ClassCastException exactly when the object is not of the class the type is cast to (`CastsTo`: Byte for BYTES, so a byte array fails); otherwise the writable carries the object's own value (`Carries`) |
| DataQuality.FieldOutputCases | cdap-app-templates/cdap-dq/src/main/java/co/cask/cdap/dq/DataQualityApp.java:208-220 | a field is written exactly when its value is non-null, its unwrapped type is supported, the cast succeeds and the field set is empty or names it; the pair is the field's name with a writable of its own value; a failed cast is the only failure |
| DataQuality.MapOutputFails | cdap-app-templates/cdap-dq/src/main/java/co/cask/cdap/dq/DataQualityApp.java:208-222 | `map` throws exactly when some field's cast fails |
| DataQuality.MapOutputEmits | cdap-app-templates/cdap-dq/src/main/java/co/cask/cdap/dq/DataQualityApp.java:208-222 | without a failure, a pair is written exactly when some field produces it, and at most one pair per field |
| DataQuality.MapWritesFieldValues | cdap-app-templates/cdap-dq/src/main/java/co/cask/cdap/dq/DataQualityApp.java:208-220 | every pair `map` writes is some field's name with a writable of that field's own value |
| DataQuality.EmptyFieldSetSelectsAll | cdap-app-templates/cdap-dq/src/main/java/co/cask/cdap/dq/DataQualityApp.java:218-219 | with an empty field set, every field of a supported type is written |
| DataQuality.MapContext.Write | cdap-app-templates/cdap-dq/src/main/java/co/cask/cdap/dq/DataQualityApp.java:219 | the pair is appended to what the context has received |
| DataQuality.MapContext.constructor | cdap-app-templates/cdap-dq/src/main/java/co/cask/cdap/dq/DataQualityApp.java:205 | a new context has received nothing |
| DataQuality.AggregationMapper.constructor | cdap-app-templates/cdap-dq/src/main/java/co/cask/cdap/dq/DataQualityApp.java:192 | a new mapper starts with an empty field set |
| DataQuality.AggregationMapper.Initialize | cdap-app-templates/cdap-dq/src/main/java/co/cask/cdap/dq/DataQualityApp.java:195-202 | the field set becomes the configured aggregations' key set; no configuration (null) leaves it as it was |
| DataQuality.AggregationMapper.Map | cdap-app-templates/cdap-dq/src/main/java/co/cask/cdap/dq/DataQualityApp.java:205-223 | the context receives the pairs of `MapOutput`, in schema order, and the method reports a thrown ClassCastException exactly when `MapOutput` fails |
| DataQuality.MapOutputStops | cdap-app-templates/cdap-dq/src/main/java/co/cask/cdap/dq/DataQualityApp.java:205-223 | once a field's cast fails, the remaining fields are neither written nor examined |
| DataQuality.DefaultMapperWritesContentLength | cdap-app-templates/cdap-dq/src/main/java/co/cask/cdap/dq/DataQualityApp.java:196-219 | a mapper set up from the default aggregations writes only content_length |
| FieldLineage.NewFieldReadOperation | cdap-app-templates/cdap-etl/cdap-etl-api/src/main/java/io/cdap/cdap/etl/api/lineage/field/FieldReadOperation.java:55-59 | the type is READ; name, description and source are the given ones; and the output fields are the given list in order |
| FieldLineage.NewFieldReadOperationVarargs | cdap-app-templates/cdap-etl/cdap-etl-api/src/main/java/io/cdap/cdap/etl/api/lineage/field/FieldReadOperation.java:43-45 | the varargs constructor builds the same operation as the list constructor over the array's contents at the time of the call |
| FieldLineage.Equals | cdap-app-templates/cdap-etl/cdap-etl-api/src/main/java/io/cdap/cdap/etl/api/lineage/field/FieldReadOperation.java:77-90 | true exactly for a FieldReadOperation (not null, not another class) with equal name, type, description, source and output fields |
| FieldLineage.EqualsIsEquivalence | cdap-app-templates/cdap-etl/cdap-etl-api/src/main/java/io/cdap/cdap/etl/api/lineage/field/FieldReadOperation.java:77-90 | `equals` is reflexive, symmetric and transitive, and false for null and for other classes |
| FieldLineage.VarargsMatchesList | cdap-app-templates/cdap-etl/cdap-etl-api/src/main/java/io/cdap/cdap/etl/api/lineage/field/FieldReadOperation.java:43-59 | the two constructors, given the same fields, build operations that `equals` reports equal |
| FieldLineage.CopyIsDefensive | cdap-app-templates/cdap-etl/cdap-etl-api/src/main/java/io/cdap/cdap/etl/api/lineage/field/FieldReadOperation.java:58 | changing the caller's array after construction leaves the operation's output fields as they were |

## Left out

- Netty mechanics are not modelled: `fireChannelRead`, promises, the `writeAndFlush` listener and the thread-local storage of `SecurityRequestContext`. The context is one explicit object, and downstream processing is a parameter: the audit events it adds and a response it may write.
- `SecurityRequestContext`, `Credential.CredentialType.fromQualifiedName` and `AuditLogWriter` are not part of this model. The context is assumed to start an empty audit queue on reset. The credential-type lookup is a parameter. The writer records the queues it is given.
- AuthenticationChannel.AuditLogWriter.Publish: the modelled writer never fails. In the source `publishAuditLogQueue` declares `IOException` (AuthenticationChannelHandler.java:179), and `auditLogWriter.publish` (line 182) can throw it. Three things then follow that the model does not capture. The attribute is not cleared (line 183 is skipped). `super.write` or `super.close` is not reached (lines 152 and 161). The same queue is handed to the writer again by the next `write` or `close`. So `WriteThenClose`'s "at most once" holds only for a writer that does not fail.
- Logging statements throughout are left out.
- HTTP execution, Gson parsing and `java.net.URL` are not modelled. An exchange is an IO failure or a reply of status, message, body and parse result. URL checking is a parameter giving a URL's external form or the exception message.
- Null fields in JSON documents are `Option`s. A NullPointerException's message is taken to be "null".
- `OAuthStore` is not part of this model. The store is a map of providers and a map keyed by (provider, credential id), with flags for read and write failures.
- OAuth.StoredProvider: with the reuse flag, a provider already stored under the name is taken to keep its client credentials, and a provider not yet stored is stored without any. This is an assumption, because the store's own code is not part of this model.
- OAuth.ProviderFromRequest: without reuse, a null client id or client secret is taken to make `OAuthClientCredentials.newBuilder()…build()` (OAuthHandler.java:124-127) throw a NullPointerException, answered as 400 "Invalid provider: null". That builder is not part of this model. If it accepted nulls, the code would store a provider with incomplete credentials and answer 200.
- OAuth.WriteRefreshToken: the NullPointerException caught at OAuthHandler.java:216-217 is not modelled. The builder can only throw it for a null token or redirect URI, which the earlier checks exclude, and the store's own null checks are not part of this model.
- Percent-encoding is not modelled. The URL and the request bodies are built as the code builds them, so the parameter lemmas require values free of '&'.
- The responder's JSON serialisation is not modelled: a response is a datatype.
- The Guava `LoadingCache` and `Class.forName` reflection in `ErrorLogsClassifier` are not modelled. They become a lookup giving "assignable", "not assignable" or "does not load".
- The `CloseableIterator` of log events is a sequence.
- ErrorLogs.Classify: HashMap and HashSet iteration order is unspecified, so the contract fixes which responses appear and in which part, not their order within each part.
- `ErrorClassificationResponse` equality is taken to be value equality, since its class is not part of this model.
- In `DataQualityApp`, these are left out:
  - the Hadoop job wiring (`FieldAggregator.configure`/`beforeSubmit`, plugin lookup);
  - `AggregationReducer`, which loads aggregation classes by reflection;
  - `DataQualityWritable` serialisation;
  - floating-point semantics: float and double values are carried as `real` and never computed with, so IEEE rounding, NaN and signed zero are not modelled;
  - the Gson round trip of the field aggregations into the job properties.
- DataQuality.MapContext.Write: `context.write` (DataQualityApp.java:219) can throw `IOException` or `InterruptedException`, which is why `map` declares them (line 206). The modelled write always succeeds, so `AggregationMapper.Map` reports only the ClassCastException. It does not model a `map` that stops part-way because a write failed, with the earlier pairs already written.
- The order of `DataQualitySource`'s constructor arguments is taken as (name, id, properties), because its class is not part of this model.
- `FieldOperation.equals` is not part of this model. It is taken to compare name, type and description. The identity shortcut of `equals` is not modelled separately, because for values it agrees with structural equality.
- `hashCode` is left out.
- Null elements in the output-field list are not modelled. Neither is a null list or varargs array: `new ArrayList<>(null)` (FieldReadOperation.java:58) and `Arrays.asList(null)` (line 44) throw a NullPointerException, but the model's `seq` and `array` parameters cannot be null.
- `NotImplementedException` (a constant status 501) and `MapReduceWeaveRunnable` (returns a class object) are left out: they contain no logic.
