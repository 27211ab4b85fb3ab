# egauth verification model

A Dafny model of the decision core of egauth, a Go authentication library, and proofs about it.
`dafny verify dfyconfig.toml` checks the whole project.

The centre is the sealed login and session machine of `internal/core`. A login collects verified
factors in a *Pending*; an admission turns it into *session attributes*, which then change only by
reauthentication, factor enrolment, password change and renewal. Between any two steps the values
may be stored through a canonical binary codec. Around it stand the small concurrent protocols that
the deployment relies on and the byte layouts of handles and ciphertexts.

How the project is laid out:

- `Prelude`, `Ordering`, `Factors`, `Domain`: machine integers, instants, factors in code order,
  tenants, account state, verification shapes.
- `Pendings`, `Sessions`: the transitions as functions, with the loops of the source as methods.
- `Wire`, `Codec`, `PendingCodec`: the encoding as functions and its exactness.
- `BufferCodec`: the encoder and the sticky-error decoder as objects that update a buffer, proved
  equal to those functions.
- `Histories`: a *journey* is a tree of login steps and a *lineage* a tree of session steps, with
  arbitrary arguments and with storage at arbitrary points. Theorems quantify over all of them,
  most of them over those that succeed; `Logins.PasswordLoginAdmits` and `Logins.StepUpLoginAdmits`
  give such a history for every user of a usable account.
- `Transparency`, `Provenance`, `Evidence`, `Chronicle`, `Acceptance`, `Refusals`, `Offers`, `Logins`,
  `Credentials`: what storage preserves, what a value says about its history, exactly which steps a
  history accepts and with which error the others end, what a login that needs a factor is offered,
  logins that go through, and where a credential may stand in two roles.
- `Epochs`: concurrent security changes of one account.
- `Jwks` with `KeyCalls`, `OneTimeCode`, `Delivery` with `DeliveryOutcomes`, `Resealing`, `ApiKeys` with
  `KeyRequests`, `Limiter`: protocols as state machines, what every run keeps and what a step is answered.
  A run is any sequence of events; each event is one atomic step of one participant, and an event
  that is not enabled changes nothing. The operations that the source performs under a lock or in a
  loop are also given as class methods. `Upgrade` and `UpgradeEnds` are one run of the secret upgrade against any store,
  `Resealing` several runs over one table.
- `Handles`, `Kek`, `ClientAddr`, `ClaimsCache`: handle and ciphertext layouts, the proxy walk, and
  the claims cache with its slices on the heap.

Conventions. Strings and byte slices are sequences of bytes. An instant is a count of nanoseconds
since 1970 without bound; the zero instant of Go lies below every int64 count. Differences of
instants saturate as in Go. Identifiers, clock readings, nonces and the answers of stores and
verifiers are arguments. Ciphers appear as function parameters with the laws of authenticated
encryption; both sets of laws are shown to have an instance.

Where code and documentation differ, the model follows the code. `Seal` is documented to refuse
whatever `Unseal` would refuse; the checks alone do not give that, because they say nothing about
factor order or about the subject of a verification. `WellFormedAttrs` and `WellFormedPending` name
what is missing, and `LineageSound` and `JourneySound` show that every reachable value has it.

Three properties one might expect are false of the code, and the exact condition is proved instead.
A passkey used to step up may afterwards reauthenticate the same session, where it counts as a login
passkey, and then stands in both roles (`Credentials.ReauthenticationMayReuse`, `Credentials.RolesMayMeet`,
and exactly when: `Credentials.LineageCredentials`). Freshness within the largest duration bounds no age
(`Logins.LargestDurationNeverEnds`, `Logins.AgeBoundExact`, `Logins.SecondAgeBoundExact`); no caller asks
for it, since the reauthentication window is at most an hour (`config.go:104`,
`internal/httpx/preamble.go:91`) and a route names one of three freshness values
(`internal/routes/builder.go:107-117`), so every window in use bounds the age.
A key fetch that fails after starting at the zero instant is not backed off (`Jwks.ZeroRun`, `Jwks.SpacingExact`).

## Model

| member | source | states |
|---|---|---|
| `Factors.CodeOrder` | internal/core/factor.go:101-103 | Ordering factors by rank is ordering them by their codes, byte by byte, for all factors |
| `Factors.CodesDistinct` | internal/core/factor.go:61-66 | No two factors share a code, so decoding a code is unambiguous |
| `Factors.FactorByCode` | internal/core/factor.go:61-66 | Finds the one valid factor with a code, and nothing for any other code |
| `Factors.SortDistinct` | internal/core/factor.go:101-114 | Sorting and compacting gives the canonical list of the same factor set |
| `Factors.UnionFactors` | internal/core/factor.go:105-114 | The accumulator loop computes the canonical list of both factor sets |
| `Factors.UnionLaws` | internal/core/factor.go:105-114 | Union is strictly sorted, holds exactly both sets, is commutative and associative, and adding a set twice changes nothing |
| `Ordering.Deduplicate` | internal/core/policy.go:118-127 | Keeps every value once |
| `Domain.ParseTenantId` | internal/core/tenant.go:25-37 | Accepts exactly the names of 1 to 128 permitted characters |
| `Domain.NewMfaDecision` | internal/core/policy.go:118-127 | A loaded decision lists the enrolled factors canonically and requires one exactly when some factor is enrolled |
| `Domain.CheckVerifiedShape` | internal/core/pending.go:67-104 | The counting loop accepts exactly the proper verification shapes: one second factor, one primary factor, or a passkey with user verification, with the credential, identification and provider rules |
| `Domain.ShapeOfCanon` | internal/core/pending.go:48-65 | Sorting and deduplicating properly shaped factors keeps their shape, second or primary |
| `Pendings.ComputeFactorSet` | internal/core/pending.go:330-336 | The loop computes the union of the verified factors |
| `Pendings.ComputeCredentialUses` | internal/core/pending.go:338-351 | The loop lists one use per passkey factor of each verification that has a credential |
| `Pendings.ComputeLatest` | internal/core/pending.go:353-361 | The loop computes the latest matching instant |
| `Pendings.LatestIsMaximum` | internal/core/pending.go:353-371 | The latest instant is an upper bound of the matching ones and is one of them, or the zero instant |
| `Sessions.ComputeMergeUses` | internal/core/transitions.go:98-106 | The loop appends exactly the credential uses that are not there yet |
| `Sessions.MergeMembers` | internal/core/transitions.go:98-106 | Merging keeps every use of both lists and invents none |
| `Wire.BigEndianRoundTrip` | internal/core/codec.go:259-261 | Reading a big-endian integer gives back the integer written |
| `Wire.FromBigEndianRoundTrip` | internal/core/codec.go:377-383 | Writing the integer read gives back the same bytes |
| `Wire.CountRoundTrip` | internal/core/codec.go:338-349 | A written count reads back, and the bound by the remaining bytes does not refuse it |
| `Wire.FieldRoundTrip` | internal/core/codec.go:351-362 | A length-prefixed field reads back and leaves exactly what followed it |
| `Wire.TimeRoundTrip` | internal/core/codec.go:275-285 | The zero instant and every int64 instant read back as themselves, negative ones included |
| `Wire.ManyRoundTrip` | internal/core/codec.go:296-301 | A list of self-inverse elements reads back element by element |
| `Wire.ListRoundTrip` | internal/core/codec.go:338-349 | The count bound never rejects a valid encoded list, whatever follows it |
| `Codec.ReadFactorsAreCanonical` | internal/core/codec.go:451-466 | A decoded factor list is strictly sorted and free of the zero factor |
| `Codec.AttrsBodyRoundTrip` | internal/core/codec.go:52-117 | Decoding the encoded body of well-formed attributes gives them back with no byte left |
| `Codec.AttrsCodecExact` | internal/core/codec.go:83-117 | Unseal yields a value from bytes if and only if the value is well formed and Seal of it is those bytes |
| `PendingCodec.PendingBodyRoundTrip` | internal/core/codec.go:121-190 | Decoding the encoded body of a well-formed Pending gives it back with no byte left |
| `PendingCodec.PendingCodecExact` | internal/core/codec.go:151-190 | UnsealPending yields a Pending from bytes if and only if it is well formed and SealPending of it is those bytes |
| `BufferCodec.Encoder.constructor` | internal/core/codec.go:242-244 | A new encoder holds version and tag and no error |
| `BufferCodec.Encoder.PutBytes` | internal/core/codec.go:250-253 | Appends the length-prefixed field |
| `BufferCodec.Encoder.PutU64` | internal/core/codec.go:259-261 | Appends the 8-byte field of the word |
| `BufferCodec.Encoder.PutBool` | internal/core/codec.go:263-269 | Appends the one-byte field |
| `BufferCodec.Encoder.PutUuid` | internal/core/codec.go:271-273 | Appends the 16-byte field |
| `BufferCodec.Encoder.PutTime` | internal/core/codec.go:275-285 | Appends the instant, or records the error for one out of range and writes nothing |
| `BufferCodec.Encoder.PutSubject` | internal/core/codec.go:287-294 | Appends tenant and user |
| `BufferCodec.Encoder.PutFactors` | internal/core/codec.go:296-301 | The loop appends the counted factor list |
| `BufferCodec.Encoder.PutUses` | internal/core/codec.go:63-67 | The loop appends the counted credential uses |
| `BufferCodec.PutVerifieds` | internal/core/codec.go:131-138 | The loop appends the counted verifications and remembers any instant out of range |
| `BufferCodec.Encoder.Finish` | internal/core/codec.go:303-311 | Gives the bytes unless an error was recorded or the size bound is exceeded |
| `BufferCodec.CheckAttrsLoop` | internal/core/codec.go:192-202 | The early-return loop decides the check of session attributes |
| `BufferCodec.CheckPendingLoop` | internal/core/codec.go:204-217 | The early-return loop decides the check of a Pending |
| `BufferCodec.Seal` | internal/core/codec.go:52-79 | The buffer run computes the specified encoding, errors included |
| `BufferCodec.SealJourney` | internal/core/codec.go:121-147 | The buffer run computes the specified Pending encoding, errors included |
| `BufferCodec.Decoder.Count` | internal/core/codec.go:338-349 | Reads a count bounded by the remaining bytes; after an error it reads nothing |
| `BufferCodec.Decoder.TakeBytes` | internal/core/codec.go:351-362 | Reads one field; the error stays once set |
| `BufferCodec.Decoder.Fixed` | internal/core/codec.go:364-371 | Reads one field of the given size or fails |
| `BufferCodec.Decoder.TakeU64` | internal/core/codec.go:377-383 | Reads a word |
| `BufferCodec.Decoder.TakeBool` | internal/core/codec.go:385-394 | Reads a boolean and refuses any byte above one |
| `BufferCodec.Decoder.TakeUuid` | internal/core/codec.go:396-400 | Reads a user or lineage id |
| `BufferCodec.Decoder.TakeTime` | internal/core/codec.go:402-412 | Reads an instant: empty is the zero instant, any length but eight fails |
| `BufferCodec.Decoder.TakeTransport` | internal/core/codec.go:414-420 | Reads the transport byte |
| `BufferCodec.Decoder.TakeSubject` | internal/core/codec.go:422-437 | Reads tenant and user and refuses a tenant that does not parse |
| `BufferCodec.Decoder.TakeFactor` | internal/core/codec.go:439-449 | Reads one factor code and refuses an unknown one |
| `BufferCodec.Decoder.TakeAscending` | internal/core/codec.go:451-466 | The loop that stops at the first disorder accepts exactly the lists that are sorted as a whole |
| `BufferCodec.Decoder.TakeUses` | internal/core/codec.go:92-96 | The loop over a sticky error reads the list or fails as a whole |
| `BufferCodec.Decoder.TakeVerifieds` | internal/core/codec.go:163-172 | The loop over a sticky error reads the verifications or fails as a whole |
| `BufferCodec.Decoder.TakeAttrs` | internal/core/codec.go:88-106 | The field-by-field run reads exactly what the specification reads |
| `BufferCodec.Decoder.TakePending` | internal/core/codec.go:156-179 | The field-by-field run reads exactly what the specification reads |
| `BufferCodec.Unseal` | internal/core/codec.go:83-117 | The decoder run, the checks and the re-seal comparison compute the specified result |
| `BufferCodec.UnsealJourney` | internal/core/codec.go:151-190 | The decoder run, the checks and the re-seal comparison compute the specified result |
| `Histories.JourneySound` | internal/core/pending.go:149-279 | Every Pending of every history of steps and storage is current, of one subject in its tenant, with canonical, properly shaped verifications |
| `Histories.LineageSound` | internal/core/transitions.go:19-191 | Every session of every history is well formed for the codec |
| `Histories.CredentialUsesMembers` | internal/core/pending.go:338-351 | A use is recorded exactly for each passkey factor of a verification with a credential |
| `Transparency.JourneySeals` | internal/core/codec.go:119-190 | A reachable Pending fails to seal only as malformed, for its size or an instant out of range, or as an invalid argument, for an expiry at the zero instant; otherwise it unseals to itself |
| `Transparency.LineageSeals` | internal/core/codec.go:48-117 | A reachable session fails to seal only as malformed, for its size or an instant out of range, and otherwise unseals to itself |
| `Transparency.JourneyTransparent` | internal/core/codec.go:119-190 | Inserting storage anywhere in a journey gives the result of the journey kept in memory, error or not, whenever what is stored fits; a stored journey that succeeds always fitted |
| `Transparency.LineageTransparent` | internal/core/codec.go:48-117 | The same for sessions and the journeys they use |
| `Provenance.JourneyRecords` | internal/core/pending.go:149-279 | A Pending holds one verification per presented one, all of its subject and before its expiry, all account states consulted have the epoch it is bound to, and the choices made at its start are unchanged |
| `Provenance.JourneyFactors` | internal/core/pending.go:330-336 | The factors of a Pending are exactly those presented |
| `Provenance.AdmissionSafety` | internal/core/transitions.go:19-64 | An admitted session has one subject and tenant, the epoch seen at binding and at every verification, exactly the presented factors, multi-factor whenever required, and remember, transport and return target as chosen at the start |
| `Provenance.JourneysStayApart` | internal/core/transitions.go:29-31 | A reauthentication journey never admits and a login journey never reauthenticates |
| `Provenance.JourneyStrength` | internal/core/factor.go:116-125 | A Pending is multi-factor if and only if a primary and a second verification, or one passkey with user verification, were presented |
| `Provenance.AdmissionExact` | internal/core/transitions.go:19-64 | A journey is admitted if and only if its history is admissible: unexpired login, usable account at one epoch throughout, a primary factor, and strong evidence when required |
| `Evidence.LineageStable` | internal/core/transitions.go:66-201 | Lineage, subject, remember, transport, return target, provider and creation instant never change, and the epoch advances by exactly the number of own changes |
| `Evidence.FactorProvenance` | internal/core/transitions.go:66-191 | A session holds a factor if and only if it was presented, enrolled, or is the password after a change; factors only grow |
| `Evidence.InstantsAreProved` | internal/core/pending.go:353-371 | The freshness instants are instants at which the aspect was proved in the history |
| `Evidence.FreshnessExact` | internal/core/attrs.go:102-110 | The saturating comparison is the exact one for every duration but the largest, which bounds nothing |
| `Evidence.FreshnessNeedsEvidence` | internal/core/attrs.go:102-110 | A fresh session has recent evidence of a primary factor and, when it holds a second one or is multi-factor, of a second; enrolling and renewing supply none |
| `Chronicle.LatestMatches` | internal/core/pending.go:353-371 | The latest instant over stored verifications is the latest over those presented |
| `Chronicle.LineageTold` | internal/core/transitions.go:66-191 | The freshness instants, the must-change flag and the claims instant are exactly those the history determines |
| `Chronicle.FreshnessOfHistory` | internal/core/attrs.go:102-110 | A session is fresh if and only if its history is |
| `Chronicle.AdmittedUses` | internal/core/transitions.go:52 | An admitted session records exactly the passkeys that were presented, in their roles |
| `Acceptance.JourneyProvider` | internal/core/pending.go:271-276 | A journey goes through at most one provider, and the Pending names it exactly when some verification did |
| `Acceptance.JourneyHash` | internal/core/pending.go:221-228 | The browser binding is set at most once in a journey, to a full-length hash, and never changes |
| `Acceptance.BindExact` | internal/core/pending.go:203-217 | A binding works if and only if the journey is a login with nothing bound and the subject is of its tenant |
| `Acceptance.AddExact` | internal/core/pending.go:237-279 | A verification is accepted if and only if it is genuine, in the tenant and in time, identifies or matches the bound subject and epoch, and fits the credentials and provider of every earlier verification |
| `Acceptance.ReauthenticationExact` | internal/core/transitions.go:72-113 | A reauthentication succeeds if and only if its journey began from this very session, in time, at one epoch, with a primary factor and strong evidence when required |
| `Refusals.RenewalExact` | internal/core/transitions.go:164-191 | A session is renewed if and only if the decision is loaded, the account is in order at the epoch its history gives, the claims are refreshed or kept and, when a factor is enrolled, the history justifies a primary and a second factor or a passkey with user verification; otherwise the error is that of the first check that fails |
| `Refusals.EnrolmentExact` | internal/core/transitions.go:120-135 | An enrolment is taken over if and only if the factor is a second one and the account is in order one bump above the epoch of the history, counted modulo 2^64; otherwise the error says which |
| `Refusals.PasswordChangeExact` | internal/core/transitions.go:141-154 | A password change is taken over if and only if the account is in order one bump above the epoch of the history, at a set instant; otherwise the error says which |
| `Refusals.AdmissionAnswer` | internal/core/transitions.go:19-64 | A completed journey is answered with the first error its history gives, and without one with a session or, when a factor is enrolled and the evidence is not strong, with the question for a factor |
| `Refusals.ReauthenticationAnswer` | internal/core/transitions.go:72-98 | A reauthentication gives the first error its history and the two sessions give, and succeeds without one |
| `Refusals.StartExact` | internal/core/pending.go:149-176 | A login starts if and only if choice, transport and policy are known and the instant is set |
| `Refusals.HashExact` | internal/core/pending.go:221-228 | A browser binding is taken if and only if it has full length and none was taken before |
| `Refusals.BindAnswer` | internal/core/pending.go:203-217 | A binding gives the first error its history gives, and succeeds without one |
| `Refusals.AddAnswer` | internal/core/pending.go:237-279 | A verification gives the first error that its shape or the history gives, and is accepted without one |
| `Offers.ParkExact` | internal/core/transitions.go:42-44 | A login is asked for a factor if and only if it is admissible but for its strength; it is then parked as it is and offered each enrolled factor once, in code order |
| `Offers.CompletionExact` | internal/core/policy.go:139-142 | One more accepted verification completes a parked login if and only if it is a second factor or a passkey, read at the same epoch |
| `Offers.OfferCompletes` | internal/core/policy.go:139-142 | Presenting any offered second factor of the same subject, in time and at the same epoch, is accepted and completes the login |
| `Offers.EveryOfferCompletes` | internal/issuance/enrolled.go:66-86 | With the enrolment the stores give, whatever a parked login is offered completes it |
| `Logins.PasswordLoginAdmits` | internal/core/transitions.go:19-64 | Every user of a usable account without a second factor is admitted with a password alone, at any instant |
| `Logins.StepUpLoginAdmits` | internal/core/transitions.go:19-64 | Every user of a usable account is admitted with a password and a step-up by any passkey, whatever is required |
| `Logins.LargestDurationNeverEnds` | internal/core/attrs.go:102-110 | A password login after the zero instant is fresh within the largest duration at every later instant, however far |
| `Logins.AgeBoundExact` | internal/core/attrs.go:102-110 | Freshness within a duration bounds the age of the primary proof of every reachable session if and only if the duration is not the largest |
| `Logins.SecondAgeBoundExact` | internal/core/attrs.go:102-110 | It bounds the age of the second proof of every reachable session that needs one under the same condition, and no other |
| `Credentials.JourneyCredentials` | internal/core/pending.go:265-270 | In every journey no credential is used both as login passkey and as step-up |
| `Credentials.AdmittedCredentials` | internal/core/transitions.go:19-64 | So neither in any session just admitted |
| `Credentials.ReauthenticationCredentials` | internal/core/transitions.go:98-106 | After any reauthentication the roles are apart if and only if they were before and its journey crosses no credential of the session |
| `Credentials.LineageUses` | internal/core/transitions.go:98-106 | A session records a passkey in a role if and only if it was presented in that role at the login or at some reauthentication |
| `Credentials.LineageCredentials` | internal/core/attrs.go:29-42 | In a session the roles are apart if and only if no credential was ever presented to it in both |
| `Credentials.ReauthenticationMayReuse` | internal/core/transitions.go:98-106 | Every session stepped up with a passkey, on a usable account at its epoch, is reauthenticated by that same passkey, whatever is required, and then holds it in both roles |
| `Credentials.RolesMayMeet` | internal/passkeysvc/stepup.go:84-106 | Some reachable session holds one credential both as step-up and, after a reauthentication by it, as login passkey |
| `Epochs.RunsAreConsistent` | internal/identitysvc/change_password.go:18-45 | In every interleaving every epoch a session passed through since its admission was bumped by its own lineage, and every request bumped above the session it started from |
| `Epochs.RestampIsOwn` | internal/core/transitions.go:193-201 | Restamping succeeds only when the request's own bump is the one right above the session's epoch and nobody bumped since |
| `Epochs.SingleSurvivor` | internal/issuance/reauth.go:101-127 | A session admitted before a bump and stamped at or above it belongs to the lineage that made the bump |
| `Epochs.SurvivorsAgree` | internal/issuance/reauth.go:101-127 | Two sessions surviving one bump come from the same login |
| `Epochs.DeadStaysDead` | internal/core/transitions.go:92 | A session overtaken by someone else's bump, and everything its lineage is issued later by any step, stays at the old epoch: not live, not renewed and not reauthenticated above it, whatever runs next |
| `Epochs.UndisturbedChangeSurvives` | internal/issuance/reauth.go:101-127 | A live session that changes its password or enrols undisturbed is issued anew at the bumped epoch |
| `Epochs.BoundLoginRefused` | internal/core/transitions.go:39 | However it continues, a bound login is neither extended nor admitted against an account state above its epoch |
| `Epochs.RunsAreAttributed` | internal/identitysvc/change_password.go:35 | In every interleaving only a lineage that was issued a session has bumped |
| `Epochs.DeadLogin` | internal/core/transitions.go:39 | A login bound before a bump stays dead however it continues: even admitted after the bump against a state read before it, its lineage is never issued anything above the old epoch |
| `Epochs.ChangePassword` | internal/identitysvc/change_password.go:18-45 | The change restamps the session if and only if the session was live, the passwords were accepted and nobody else bumped between check, bump and second read |
| `Jwks.JwksSource.RecordFetch` | resource_server_keys.go:48-59 | A failure sets the back-off only; a success replaces the key set, later keys winning, and clears it |
| `Jwks.JwksSource.StartFlight` | resource_server_keys.go:61-78 | Joins the running flight or starts the given one |
| `Jwks.JwksSource.FirstLook` | resource_server_keys.go:84-103 | Decides served, unknown, unavailable or waiting, and starts a flight only when it waits for a new one |
| `Jwks.JwksSource.Land` | resource_server_keys.go:68-76 | Records the fetch under the instant it started and ends the flight |
| `Jwks.RunsAreValid` | resource_server_keys.go:48-119 | The invariant of every interleaving of callers, fetches and a non-decreasing clock |
| `Jwks.SingleFlight` | resource_server_keys.go:61-78 | At most one fetch is ever in progress |
| `Jwks.SpacingExact` | resource_server_keys.go:93-102 | For every bring-up, any two fetches of any run start at least ten seconds apart, however the first ended, if and only if no later fetch can start at the zero instant |
| `Jwks.ZeroRun` | resource_server_keys.go:97 | Where one can, a run whose second fetch starts at the very instant of the first, which failed |
| `Jwks.ServedKeysAreFresh` | resource_server_keys.go:80-119 | A returned key is that of the then latest successful fetch, which started less than a minute before the call or landed during it |
| `Jwks.FailsClosed` | resource_server_keys.go:80-119 | A call a minute or more after the last successful landing gets no key |
| `KeyCalls.KeysExact` | resource_server_keys.go:53-56 | A fetched list gives for an id the last key that carries it |
| `KeyCalls.EntryExact` | resource_server_keys.go:84-103 | In every run the answer on entering is decided by the fetches: served in the same step and without a fetch by a set under a minute old that names the key, unknown by one under ten seconds old that does not, else joined to the fetch in progress, backed off, or starting one |
| `KeyCalls.WakingExact` | resource_server_keys.go:104-119 | In every run a waiting call is unavailable if its fetch failed and else answered from the latest set, and nothing else changes |
| `KeyCalls.CancelExact` | resource_server_keys.go:104-108 | In every run a waiting call whose context ends is unavailable, and its fetch goes on |
| `KeyCalls.LandingExact` | resource_server_keys.go:68-76 | In every run the fetch in progress ends with what it got, and nothing ends without one |
| `KeyCalls.AnswersStand` | resource_server_keys.go:80-119 | An answered call stays as it was answered |
| `KeyCalls.ForeignCall` | resource_server_keys.go:81-83 | A call for another tenant is refused and starts no fetch |
| `OneTimeCode.Store.RecordFailure` | store/ceremony/memory/store.go:261-283 | Charges one attempt of a live record, returns how many are left and removes the record at the bound |
| `OneTimeCode.Store.Consume` | store/ceremony/memory/store.go:242-259 | Removes a live record, once |
| `OneTimeCode.CheckCode` | internal/codesvc/code.go:186-232 | A verification on its own succeeds if and only if the record is live, the request is admitted and the code is right; a wrong code costs one attempt |
| `OneTimeCode.ComparisonsAreBounded` | internal/codesvc/code.go:215-221 | However many verifications interleave, at most the maximum number of attempts compare a code |
| `OneTimeCode.SingleUse` | internal/codesvc/code.go:222-231 | At most one verification succeeds, counting the one whose charge removed the record |
| `OneTimeCode.OnlyTheRightCode` | internal/codesvc/code.go:219-221 | Only the right code succeeds |
| `OneTimeCode.RecordOutlives` | store/ceremony/memory/store.go:261-283 | In every run a record that does not vanish is there until the maximum number of attempts was charged or one succeeded |
| `OneTimeCode.AloneSucceeds` | internal/codesvc/code.go:186-232 | Wherever a run has got, an undisturbed verification succeeds if and only if the record is live, the request is admitted and the code is right, and costs one attempt |
| `Delivery.JobsAreConserved` | internal/delivery/pool.go:79-149 | In every interleaving each arrived job is in exactly one place once: with its caller, queued, with a worker, delivered or reported |
| `Delivery.QueueIsSafe` | internal/delivery/pool.go:86-98 | The queue never exceeds its size and nothing is sent to the closed channel |
| `Delivery.CloseSettles` | internal/delivery/pool.go:102-128 | After Close the queue is empty, at most four jobs are still held, and every other job its caller let go of was delivered or reported once |
| `DeliveryOutcomes.DeliveredExact` | internal/delivery/pool.go:130-149 | In every run a job is delivered if and only if a send of it ended well |
| `DeliveryOutcomes.ReportedExact` | internal/delivery/pool.go:79-149 | In every run a job is reported if and only if its caller was turned away, a worker saw the abort, its send failed or Close drained it |
| `DeliveryOutcomes.FailingWasTurnedAway` | internal/delivery/pool.go:86-98 | A caller gives up a job only because the pool was closed or the queue full |
| `DeliveryOutcomes.DeliveryIsExplained` | internal/delivery/pool.go:130-149 | Every delivery was started by a worker that had seen no abort |
| `DeliveryOutcomes.NoSendAfterAbort` | internal/delivery/pool.go:132-136 | Once an abort is set no worker starts to send |
| `DeliveryOutcomes.AbortExact` | internal/delivery/pool.go:113-121 | The abort is set if and only if Close has given up waiting or returned |
| `DeliveryOutcomes.NoJobIsStuck` | internal/delivery/pool.go:79-149 | From every reachable state, during and after Close too, every job at hand can be delivered or reported |
| `DeliveryOutcomes.CloseCanReturn` | internal/delivery/pool.go:102-128 | From every reachable state Close can return |
| `Delivery.Pool.Enqueue` | internal/delivery/pool.go:79-98 | Queues a job when open and not full, and reports it otherwise |
| `Delivery.Pool.Work` | internal/delivery/pool.go:130-149 | A worker empties the queue in order, delivering or reporting each job by its outcome, and only reports after an abort |
| `Delivery.Pool.Drain` | internal/delivery/pool.go:122-126 | Everything still queued is reported, in order |
| `Upgrade.Run.Row` | upgrade.go:118-148 | One row is counted once, or stops the run and leaves the report alone |
| `Upgrade.Run.Source` | upgrade.go:83-103 | The page loop terminates against every store and computes the specified progress |
| `Upgrade.Run.Sources` | upgrade.go:60-81 | The sources run in turn; unopenable rows make the upgrade incomplete |
| `Upgrade.RowsCount` | upgrade.go:96-148 | Rows run through if and only if none stops the run, and are then counted as re-sealed, overtaken or unopenable by how each ended |
| `Upgrade.RunAccounts` | upgrade.go:83-148 | A run without error was listed no row that stops it, counted each listed row by how it ended, and Upgraded + Concurrent + Unopenable grew by exactly the rows listed |
| `Upgrade.AllAccounts` | upgrade.go:60-81 | Over all sources nothing counted is lost; an upgrade not stopped early counted each row of every source, the three counts grew by exactly their number, and it is complete if and only if no row is unopenable |
| `UpgradeEnds.RunStopExact` | upgrade.go:83-103 | A run ends without error if and only if the store lists pages that each advance the cursor, none with a row that stops, up to an empty page; it ends with an error if and only if that is the first thing that failed |
| `UpgradeEnds.RunReport` | upgrade.go:83-148 | However a run ends, its report counts exactly the rows it got through |
| `UpgradeEnds.AllStopExact` | upgrade.go:60-81 | The upgrade is complete if and only if every source is exhausted and no row is unopenable, incomplete when only the latter fails, and else ends with what failed in the first source that is not exhausted |
| `UpgradeEnds.AllReport` | upgrade.go:60-81 | However the upgrade ends, the report counts exactly the rows got through, sources after a failed one not included |
| `Resealing.ResealedOnce` | store/federation/memory/store.go:486-502 | However runs interleave, each row is re-sealed at most once, the Upgraded counts add up to the rows re-sealed but for swaps that took effect behind a reported store error, and each run accounts for its rows |
| `Resealing.UpgradedAddsUp` | upgrade.go:138-146 | Without such an error the Upgraded counts are exactly the rows re-sealed |
| `Resealing.PlaintextsAreKept` | upgrade.go:125-141 | No run changes a plaintext: a row the application did not rewrite still holds the original one |
| `Resealing.FinishedRunsLeaveNothing` | upgrade.go:51-59 | A run that ends without error leaves no row of the table in the previous format but those it reports unopenable, and it reports only rows that no candidate opens |
| `Handles.BuildPlaintext` | internal/ceremonycodec/sealer.go:149-158 | Appending field by field builds the layout |
| `Handles.ParseLayout` | internal/ceremonycodec/sealer.go:225-249 | Parsing the layout gives the fields back, with the expiry reduced to its low 64 bits |
| `Handles.HandleLayoutExact` | internal/ceremonycodec/sealer.go:225-261 | Plaintext parses to fields if and only if the fields fit and their layout is that plaintext |
| `Handles.PayloadRoundTrip` | internal/ceremonycodec/codec.go:42-86 | A payload decodes under its own kind to the value encoded |
| `Handles.PayloadExact` | internal/ceremonycodec/codec.go:42-86 | A payload is written if and only if it passes its check and fits, and read if and only if version, kind and size are right and the value passes its check |
| `Handles.OpenSealed` | internal/ceremonycodec/sealer.go:132-215 | A sealed handle opens if and only if kind and tenant match and the expiry is ahead, to the same Pending and payload, and the error else names the first of these that fails; the expiry is the sealed one if and only if it is an int64 of nanoseconds |
| `Handles.OpenSealedJourney` | internal/ceremonycodec/sealer.go:132-215 | So for every Pending that a journey reaches: its handle opens if and only if kind and tenant match and the expiry is ahead, to that very Pending |
| `Handles.OpenedWasSealed` | internal/ceremonycodec/sealer.go:175-215 | Under an ideal cipher a handle that opens is the sealed layout of the Pending it yields, for this kind and tenant |
| `Handles.HandleWithinPending` | store/ceremony/kind.go:272-281 | A handle expires after its creation and never after its Pending |
| `Handles.SealExact` | internal/ceremonycodec/sealer.go:132-170 | A handle is issued if and only if its kind is stateless, its Pending is alive and seals, its payload encodes and all fit; it lives nine minutes for a provider round trip and five otherwise, or as long as its Pending if that is less; otherwise the error is that of the first check that fails |
| `Handles.IdealAeadExists` | internal/ceremonycodec/sealer.go:159-164 | The laws assumed of the cipher have an instance |
| `Kek.NewLocal` | kek/local.go:49-66 | The ring is built if and only if every key is acceptable and no two share an id, and then holds exactly those keys |
| `Kek.SealText` | kek/local.go:109-122 | Appending header, nonce and sealed text computes the specified ciphertext |
| `Kek.HeaderRoundTrip` | kek/local.go:168-177 | A written header parses to its key id and leaves the body |
| `Kek.HeaderExact` | kek/local.go:168-177 | Every accepted header is the written header of its key id |
| `Kek.BoundDataInjective` | kek/local.go:179-183 | Header joined with associated data determines both |
| `Kek.RotationExact` | kek/local.go:109-146 | A ciphertext of one ring opens in another if and only if that ring has the sealing key and the associated data is the same, and then to the same text; otherwise the error tells a missing key id from a failed opening |
| `Kek.DataIsRequired` | kek/local.go:109-127 | A text is sealed if and only if there is associated data, and nothing opens without |
| `Kek.RetiredKeyIsUnknown` | kek/local.go:133-136 | Under a ring without the key a ciphertext is refused as of an unknown key |
| `Kek.OpenedWasSealed` | kek/local.go:125-146 | Under an ideal cipher a ciphertext that opens was sealed by a key of the ring over this associated data |
| `Kek.IdealCipherExists` | kek/local.go:100-106 | The laws assumed of the cipher have an instance that accepts a ring of two keys |
| `ApiKeys.ComputeIntersect` | apikey_gate.go:70-78 | The loop computes the specified intersection |
| `ApiKeys.IntersectMembers` | apikey_gate.go:70-78 | The intersection holds exactly the values both held and granted, each once |
| `ApiKeys.ClaimsAreHeld` | apikey_gate.go:254-257 | Effective roles, scopes and groups are exactly those held by the owner and granted to the key, and the custom claims are the owner's |
| `ApiKeys.ClaimsAreRecent` | apikey_gate.go:222-262 | In every interleaving a returned claim set was computed for that key at the same owner epoch, by the request itself or less than the recheck interval before it, from claims its owner held at an epoch no older than the one the request saw |
| `ApiKeys.RevokedIsNotServed` | apikey_gate.go:222-262 | In every interleaving a role, scope or group revoked with a bump of the epoch is returned to no request that saw the bump, cached or not |
| `ApiKeys.BumpIsAhead` | store/identity/mutation.go:265-290 | In every run a bump leaves all earlier holdings of the owner at a smaller epoch |
| `ApiKeys.CacheIsBounded` | apikey_gate.go:103-114 | The cache never holds more than its bound |
| `KeyRequests.RequestAnswer` | apikey_gate.go:222-262 | An undisturbed request gets the remembered claims if they are of the epoch it saw and not due for a recheck, else what the owner holds now narrowed to the grant, else a refusal |
| `KeyRequests.NextRequestIsCached` | apikey_gate.go:232-234 | Claims computed at the current epoch answer the next request of the key within the recheck interval without another computation |
| `ClaimsCache.Cache.Get` | apikey_gate.go:95-101 | Returns a copy in fresh slices |
| `ClaimsCache.Cache.Drop` | apikey_gate.go:116-120 | Removes one entry and nothing else |
| `ClaimsCache.Cache.PutSlot` | apikey_gate.go:103-114 | Keeps a copy in fresh slices, displacing another entry only when full |
| `ClaimsCache.GetThenOverwrite` | apikey_gate.go:95-101 | Overwriting returned slices leaves the cache as it was |
| `ClaimsCache.PutThenOverwrite` | apikey_gate.go:103-114 | Overwriting slices after handing them in changes neither what the cache kept nor any other entry |
| `ClientAddr.NormalisedPrefix` | internal/clientaddr/clientaddr.go:73-91 | An accepted prefix is narrow enough and contains the addresses the given one did, mapped IPv4 ones as IPv4 |
| `ClientAddr.PrefixesAccepted` | internal/clientaddr/clientaddr.go:73-91 | A prefix is accepted if and only if it is valid and at least a /8 of IPv4, a /104 of mapped IPv4 or a /16 of other IPv6; otherwise the error says which |
| `ClientAddr.NewTrusted` | internal/clientaddr/clientaddr.go:60-71 | The policy holds the normalised prefixes if and only if every one is acceptable, and otherwise the first refusal is returned |
| `ClientAddr.ComputeTrusts` | internal/clientaddr/clientaddr.go:165-172 | The loop decides membership in some trusted prefix |
| `ClientAddr.Resolve` | internal/clientaddr/clientaddr.go:136-163 | The backward loop computes the specified walk |
| `ClientAddr.ResolvedExact` | internal/clientaddr/clientaddr.go:136-163 | No client if and only if the peer is unreadable; the peer itself under the direct policy or when it is in no trusted prefix, whatever the hops; else the one address at which the walk has to stop |
| `ClientAddr.SpoofedHopsAreIgnored` | internal/clientaddr/clientaddr.go:151-162 | Once the walk stops within the given hops, any hops further left change nothing |
| `ClientAddr.TrustedHopsAreCrossed` | internal/clientaddr/clientaddr.go:151-162 | Over trusted hops alone the walk continues to the left |
| `ClientAddr.NonInterferenceExact` | internal/clientaddr/clientaddr.go:151-162 | The answer is independent of everything to the left if and only if the walk stops within the given hops |
| `ClientAddr.AnswerIsExplained` | internal/clientaddr/clientaddr.go:136-163 | Every hop right of the answer is a trusted proxy, and the walk ended because it ran out of hops, met an unreadable one or left the trusted ones |
| `Limiter.ScaledLimiter.SetInstances` | wiring_adapters.go:234-236 | Keeps the count, raised to one, if and only if it is below 2^31; the counts from there to 2^32 turn negative |
| `Limiter.ScaledLimiter.Allow` | wiring_adapters.go:216-232 | A request passes if and only if the bucket covers its whole cost; a refused one empties the bucket |
| `Limiter.FreshRequestPasses` | wiring_adapters.go:216-232 | A full bucket admits an uncontended request, whatever the number of instances |
| `Limiter.FreshBucketServes` | wiring_adapters.go:216-232 | Of k undisturbed requests to a full bucket exactly the first burst / min(n, burst) pass |
| `Limiter.RefusalMeansEmpty` | wiring_adapters.go:221-230 | In every run a request is refused only by an instance whose whole burst is spent |
| `Limiter.AloneAllowed` | wiring_adapters.go:216-232 | In every run an undisturbed request is allowed if and only if the bucket of its instance holds min(n, burst) |
| `Limiter.DeploymentBound` | wiring_adapters.go:211-236 | Instances that each know their number n and own a bucket of burst B jointly allow at most max(B, n) requests under any interleaving of charges |

## Left out

- HTTP handlers, cookies, routing, configuration and wiring: plumbing over stores and requests.
- Cryptographic primitives: ciphers are parameters with round-trip and authenticity laws; key derivation, key quality checks and randomness are not modelled.
- JSON, base64, address parsing and header splitting: library behaviour; JSON is a parameter with an inverse law, the encoded handle length is computed, a hop reader is a parameter.
- The AMR output of factors: no decision depends on it.
- Redaction of values in logs, the event registry and audit sinks: each is settled by reading one function.
- Federation, discovery and id_token checks: mostly branch lists over foreign calls.
- The identity, MFA and passkey stores: only the epoch of an account and the states read from it appear.
- `canonTime`, which drops the monotonic reading of an instant: instants here have none.
- Error texts and joined causes: an error is one of a fixed set of kinds.
- Slices as shared memory, except in the claims cache: elsewhere the source clones before it stores, and values stand for the clones.
- Epochs.RunsAreConsistent: the epoch counter is taken below 2^64, so a wrap-around of the stored counter is not reachable; `CheckBumped` itself wraps as the source does.
- Epochs.Account.CommitPassword: the password itself is not part of the account state of the model, only the bump and the must-change flag it commits.
- Jwks.RunsAreValid: the clock does not go back during a run; the branch for a clock that did is in `Look` and is not used by the results.
- OneTimeCode.ComparisonsAreBounded: one record at a time; the decoy charge for unknown handles touches another record.
- Delivery.JobsAreConserved: the timers of Close are events that may fire at any moment, so no time bound on Close is stated.
- Resealing.ResealedOnce: the application rewrites rows only in the current format while an upgrade runs, and rows keep their positions.
- Upgrade.Run.Source: the legacy candidates tried for one row are one outcome, opened, unopenable or faulty.
- ApiKeys.ClaimsAreRecent: account and claims are read as they stand at that step; the epoch a request sees may lag by any amount but is never ahead, and it stays below 2^64.
- Limiter.DeploymentBound: buckets do not refill during the run.
- Handles.OpenSealed: single use of an opened handle is left to the store and not modelled.
