# Session manager: a verified model

A Dafny model of the session manager's three hardest parts, with proofs about them.

* **Sessions and tokens.** The service keeps sessions, turn lists, token bindings (`jti`) and profiles in
  Redis, each key with its own deadline and no transactions. `Store`, `Requests` and `Handlers` give every
  handler as a function of the store; `RedisAccess` and `Services` are the classes that issue the Redis writes
  in the order the source does, each method proved to do what its function says; `Serving.ServeAll` serves any
  requests with them and ends in exactly the store and trace of `Runs.Run`, which the theorems are about.
  `Ledger` is an abstract account in which nothing expires and nothing is serialised. `Simulation` and
  `Invariant` prove that every step of the service on Redis agrees with the ledger, and `Runs`, `Agreement`,
  `FieldHistory`, `BatchHistory` and `BatchLifetime` carry this to whole runs: what Redis holds at any moment is a
  function of the trace of requests and answers. `Theorems`, `Contents`, `Histories` and `KeepAlive` are the
  results, `Outcomes` and `Additions` say what each handler achieves as its client sees it, `Continuations` extends
  runs. `Interleaving` cuts create, refresh and close at their awaits and keeps a log of the token commands;
  `Bindings` says what holds of the tokens in it, `Refreshes` when refreshes succeed, `Closings` when closes delete,
  and `DeadlineRace` what happens when a session expires between the two commands of an update.
* **Record lookup.** `Bucket` is the object store, `Lookup` the directory choice, index probes, check and scan
  of `retrieve_cusno` as functions, `Retrieval` the same as the staged method of the source,
  `LookupTheorems`, `LookupStages` and `Shards` the results. `Documents` and `ColumnNames` are the transforms a
  record goes through afterwards, and `EndToEnd` puts the three together: what was uploaded is what is retrieved.
* **Log payloads.** `Payload` is `encrypt_payload` on object graphs that may be cyclic.

## Assumptions

* The TTL is positive and one constant; the clock counts whole units. A key is present strictly before its
  deadline and a JWT is accepted strictly before its expiry (section 4.1.4 of RFC 7519).
* Token ids and session keys drawn during a run are non-empty and never repeat (section 4.1.7 of RFC 7519 for
  the token id).
* A handler runs at one instant and is not interrupted, except in `Interleaving`, `Bindings`, `Refreshes`,
  `Closings` and `DeadlineRace`. The other results about deadlines and contents are not claimed per Redis command:
  an existence check followed by a write (`app/db/redis.py:135-143`) and a read followed by a rewrite
  (`app/repositories/redis_session_repository.py:105-112`) are not atomic.
* Redis key families are separated by their prefixes. A string in Redis is raw text, `json.dumps` output or
  `isoformat` output, and the matching reader inverts the writer. Instants are numbers.
* Session hash fields are an enumeration of the names the service writes.
* UTF-8, JSON, Base64, AES-GCM and ranged GET are functions with the laws stated in `Bucket.Lawful` and
  `Documents.Lawful`.

## Where the code and its documentation differ

The model follows the code. Each difference comes with the exact condition under which the promise holds.

* `README.md:165` of the repository gives a refresh token 330 seconds. Its binding lives for the TTL of 300
  (`app/services/auth_service.py:203`), so the shorter of the two counts: `Contents.RefreshExactly` and
  `Contents.LifetimeCutShort`.
* `README.md:184` gives a batch profile the TTL of its session. It lives one TTL from its last touch
  (`BatchLifetime.BatchLives`) and outlives a session exactly when that touch is no older than the session's last
  renewal (`BatchLifetime.BatchExactly`). `BatchHistory.BatchKept` gives a condition on the session's own updates;
  `BatchLifetime.BatchLapses` is a run in which the profile goes first.
* A refresh token works once when handlers do not overlap (`Histories.RotatesOnce`, and among any other interleaved
  handlers `Refreshes.SuccessiveRebindOnce`). Two refreshes with one token both succeed exactly when both lookups
  find the binding unexpired and come before its first delete (`Refreshes.BothRebindExactly`), which can happen
  wherever the token resolves (`Refreshes.DoubleRotation`). A client is safe when it starts no second refresh of a
  token before the first one's delete (`Refreshes.StartedLate`).
* Every session key is meant to have a deadline. The HSET of an update recreates a session without one exactly when
  the session expired after the update's EXISTS (`DeadlineRace.RaceExactly`, `DeadlineRace.RaceHappens`).
* `bulk.jsonl` holds JSON Lines (`docs/Session_Manager_API_Sprint6.md:83`), whose writer leaves U+0085, U+2028 and
  U+2029 as they are inside strings (`app/services/batch_profile_utils.py:64-72`). The scan splits there too
  (`app/services/batch_profile_minio_retrieve.py:345`). A correctly indexed record is always selected
  (`LookupTheorems.IndexedIsSelected`); the scan finds the same exactly when the record's line holds no such character
  and nothing before it stops the scan (`LookupTheorems.IndexedIsScan`, `LookupTheorems.UniqueIsScan`).
  `LookupTheorems.ScanMissesRecord` is the family of records that only the index finds.

## Model

| member | source | states |
|---|---|---|
| Serving.ServeAll | app/services/session_service.py:47-79 | the classes, served any requests on a fresh store, end in exactly the store and the trace of the run the theorems are about |
| Simulation.Commute | app/repositories/redis_session_repository.py:14-207 | every step answers on Redis as on the ledger, and Redis still holds, key by key with deadlines, what the ledger implies |
| Simulation.CommuteExtend | app/repositories/redis_session_repository.py:97-136 | the refresh of several key families is one extension of one record |
| Simulation.CommutePatch | app/services/session_service.py:321-429 | the JSON strings a patch reads and rewrites amount to plain updates of turn ids, agents and reference information |
| LedgerInvariant.NextSound | app/services/auth_service.py:183-203 | every step keeps: bindings within their session's life, turns and profiles not before it, nothing beyond one TTL |
| Runs.RunRefines | app/services/session_service.py:133-527 | over every run Redis gives the ledger's answers and mirrors it at the end |
| Runs.FirstSeenOrder | app/services/session_service.py:401-412 | turn ids are kept in the order of their first occurrence |
| Agreement.RunAgrees | app/services/session_service.py:321-527 | over every run each record field is a function of the trace: last renewal, last issue, closing, turns, turn ids, agents, reference, customer |
| Theorems.LiveExactly | app/repositories/redis_session_repository.py:44-74 | a session is there exactly while its latest renewal is less than one TTL ago; `expires_at` and the key's deadline are that renewal plus the TTL |
| Theorems.EveryKeyExpires | app/db/redis.py:120-275 | every key of every family has a deadline after now and at most one TTL away |
| Theorems.IdleEmpties | app/db/redis.py:120-275 | one TTL without a handler leaves an empty store |
| Theorems.ResolvesExactly | app/services/auth_service.py:183-203 | a jti resolves to a session exactly while it is its newest, not closed by token, and less than one TTL old |
| Theorems.OneJtiPerSession | app/services/auth_service.py:202-203 | at most one jti resolves to a session |
| Theorems.TokensWithinSessions | app/services/auth_service.py:49-54 | a stored jti belongs to a stored session that expires no earlier |
| Theorems.NoLostSession | app/services/auth_service.py:101-107 | verify, ping and close by token never reach their missing-session branch, and refresh never issues tokens for a vanished session |
| Contents.TurnsKept | app/db/redis.py:157-169 | a live session has exactly the turns saved for it, in order, and their list expires no earlier |
| Contents.ProfileKept | app/services/profile_service.py:197-241 | a live session that ever saved a profile finds the one last written under its effective key by any session, and it expires no earlier |
| Contents.ResolveKept | app/services/session_service.py:192-319 | turn ids, reference information, customer, agent key and realtime profile of a lookup, each from the trace |
| Contents.MappingKept | app/repositories/redis_session_repository.py:140-191 | both members of the pair last registered for that agent, whatever was registered for others |
| Contents.PatchThenResolve | app/services/session_service.py:338-367 | a non-empty merged reference is read back exactly, an empty one leaves the old value |
| Contents.MergeOverrides | app/services/session_service.py:353-362 | entry by entry, the two top-level fields win over the patch map |
| Contents.RejectedPatchKeeps | app/services/session_service.py:338-367 | a refused patch changes `expires_at` and deadlines at most, and nothing without TALK |
| Outcomes.RefusedExactly | app/services/session_service.py:97-124 | a patch of a live session is refused exactly when its merged history is neither null nor a list or its turn count neither null, int nor bool |
| Outcomes.RefusedIfLost | app/services/session_service.py:217-241 | that is, exactly when a lookup of that reference would drop its history or its turn count |
| Outcomes.ReferenceSeen | app/services/session_service.py:217-241 | after an accepted patch with reference information a lookup answers its history, turn count, intent, active task and current task id, each unless null |
| Outcomes.PatchWritesGiven | app/services/session_service.py:333-388 | an accepted patch sets the state it names and the given fields, stamps the session, records the event of an agent or response type with exactly its five members, and leaves the rest |
| Outcomes.PatchRegisters | app/services/session_service.py:389-396 | a patch that names an agent and its session key registers the pair with its kind, for that agent only |
| Outcomes.PatchListsTurn | app/services/session_service.py:401-412 | the turn id of an accepted patch is listed last unless it was listed before |
| Outcomes.PatchSeen | app/services/session_service.py:192-319 | after an accepted patch a lookup answers the state, the first-call mark, the subagent status and the event it gave |
| Outcomes.CloseByKeyEnds | app/services/session_service.py:431-477 | a close by key ends a live session, writes what it was given, keeps the deadline and leaves every token working |
| Outcomes.CloseByTokenEnds | app/services/auth_service.py:264-333 | a close by token ends the session, and that token and its jti are refused from then on while all others resolve as before |
| Outcomes.CloseSeen | app/services/session_service.py:192-319 | after a close a lookup answers an ended session |
| Additions.CreateOpens | app/services/session_service.py:133-188 | a new session has exactly its own fields, and a lookup answers them and nothing else |
| Additions.CreateVerifies | app/services/auth_service.py:38-64 | the access token of a new session is verified at once, with its start state and its deadline |
| Additions.CreateRotates | app/services/auth_service.py:38-64 | the refresh token of a new session rotates at once |
| Additions.TurnBuilt | app/services/session_service.py:486-524 | the turn document has exactly the given members, blocks only where something is in them |
| Additions.ResultSaved | app/services/session_service.py:480-527 | saving a result adds that one turn behind the others and changes nothing else |
| Additions.ProfileJoins | app/services/profile_service.py:197-234 | after a profile that names a customer, at the top or in responseData, a lookup answers the customer, the profile and what was fetched |
| Additions.ProfileAlone | app/services/profile_service.py:235-241 | a profile that names nobody is seen under the own key of a session without customer |
| Additions.ProfileMalformed | app/services/profile_service.py:203-205 | a responseData that is no object fails and changes nothing |
| Outcomes.TokensIssued | app/core/jwt.py:15-56 | create and rotation issue two tokens of one user under one jti that differ in kind and lifetime only |
| Outcomes.AccessExactly | app/services/auth_service.py:66-133 | the newest access token is verified exactly until a close by token or until the shorter of TTL and access lifetime has passed; it never rotates and no refresh token is verified |
| Outcomes.BadTokenRefused | app/core/jwt.py:59-80 | a token not signed here, or at or past its expiry, is refused by every handler and changes nothing |
| Contents.RefreshExactly | app/services/auth_service.py:159-203 | the newest refresh token works exactly until a close by token or until the shorter of TTL and refresh lifetime has passed |
| Contents.LifetimeCutShort | app/core/jwt.py:48 | a refresh token still valid as a JWT is refused exactly from one TTL after its issue |
| FieldHistory.FieldsKept | app/db/redis.py:132-143 | every field stored as given holds what the last accepted create, patch, close or update wrote to it |
| FieldHistory.VerifyExactly | app/services/auth_service.py:119-133 | verify and ping answer the session's last state and its last renewal plus the TTL |
| BatchHistory.BatchKept | app/repositories/redis_session_repository.py:120-129 | the batch profile of a session whose last customer was fetched is the one last stored and outlives the session |
| BatchLifetime.BatchLives | app/db/redis.py:259-275 | a batch profile is there exactly for one TTL after it was last stored, or last renewed with a session of its customer |
| BatchLifetime.BatchExactly | app/repositories/redis_session_repository.py:120-129 | the batch profile of a live session is there and expires no earlier exactly when its last touch is no older than the last renewal of the session |
| BatchLifetime.BatchLapses | app/services/profile_service.py:226-234 | a run in which a live session no longer finds the batch profile of its customer |
| Histories.DeadlineNeverDecreases | app/repositories/redis_session_repository.py:109-112 | over any stretch of a run a live session's deadline does not move back |
| Histories.NeverAgain | app/services/auth_service.py:202-203 | a jti that was drawn and does not resolve never resolves again |
| Histories.RotatesOnce | app/services/auth_service.py:183-203 | in a run each refresh token succeeds at most once |
| KeepAlive.EveryAttemptSucceeds | app/services/auth_service.py:159-203 | refreshing with the newest token at gaps under the shorter of TTL and refresh lifetime always succeeds, over runs of any length and whatever else is handled |
| KeepAlive.NothingIsLost | app/repositories/redis_session_repository.py:97-136 | such a client keeps its session, every turn in order and its realtime profile |
| Interleaving.ActGood | app/services/auth_service.py:183-203 | every command of every interleaving keeps the invariant on bindings, handlers and the command log |
| Bindings.WrittenOnce | app/services/auth_service.py:54 | in every interleaving each jti is written at most once |
| Bindings.ResolvesAsIssued | app/db/redis.py:179-201 | a stored jti stands for the one session it was ever bound to |
| Bindings.LooksUpExactly | app/db/redis.py:189-201 | a lookup finds a session exactly when its jti was bound to it, has not expired and was not deleted before |
| Bindings.NeverResolvesAgain | app/services/auth_service.py:202-203 | once bound and gone, a jti never resolves again |
| Bindings.RemovedOnce | app/services/auth_service.py:202 | at most one delete of a jti removes it |
| Refreshes.RebindsAsFound | app/services/auth_service.py:183-203 | in every interleaving a refresh that runs to its end writes a binding exactly when its own lookup found the session, and for that session |
| Refreshes.RebindsExactly | app/services/auth_service.py:183-203 | it does so exactly when its jti was bound, unexpired at the lookup and not deleted before it |
| Refreshes.BothRebindExactly | app/services/auth_service.py:183-203 | two refreshes of one token both succeed exactly when both lookups find the binding unexpired and precede every delete of it |
| Refreshes.StartedLate | app/services/auth_service.py:202 | a refresh started after a delete of its jti does not succeed |
| Refreshes.SuccessiveRebindOnce | app/services/auth_service.py:183-203 | of two refreshes of one token, the second started after the first ended, at most one succeeds |
| Refreshes.DoubleRotation | app/services/auth_service.py:183-203 | wherever a token resolves, two overlapping refreshes can both succeed and leave two live jtis for its session |
| Refreshes.RotateAlone | app/services/auth_service.py:159-203 | a refresh that is not interrupted does to the store what the whole handler does |
| Closings.DeletesExactly | app/services/auth_service.py:276-308 | in every interleaving a close deletes only its own jti, and exactly when its lookup found the session and its token was still accepted when verified again |
| Closings.ClosedForGood | app/services/auth_service.py:300-308 | after a close that deleted, its token never resolves again |
| DeadlineRace.RaceExactly | app/db/redis.py:132-143 | the HSET of an update leaves every session with a deadline exactly when the session was renewed less than one TTL before; otherwise it recreates one that never expires |
| DeadlineRace.RaceHappens | app/db/redis.py:132-143 | a run in which that happens |
| Retrieval.RetrieveCusno | app/services/batch_profile_minio_retrieve.py:100-360 | the staged method selects what the function of its stages selects, errors included |
| LookupStages.ChosenByMetadata | app/services/batch_profile_minio_retrieve.py:139-155 | with a date in the metadata, as latest_date or dashed load_date, its directory is read, or latest/ when the metadata says so |
| LookupStages.ChosenLatest | app/services/batch_profile_minio_retrieve.py:176-186 | with no usable date latest/ is read exactly if it has the shard of the customer |
| LookupStages.ChosenByListing | app/services/batch_profile_minio_retrieve.py:156-172 | without metadata the greatest eight-digit directory of the listing is read |
| LookupStages.ChosenNone | app/services/batch_profile_minio_retrieve.py:145-174 | metadata that is no object is an error, a failing listing ends the lookup |
| LookupStages.DatesListed | app/services/batch_profile_minio_retrieve.py:157-166 | the listed dates are exactly the eight-digit directories some listed name is under |
| LookupStages.CandidateOrder | app/services/batch_profile_minio_retrieve.py:255-273 | the shard index wins, then index.json, then the object of the customer, each by its key |
| LookupStages.CandidateSelected | app/services/batch_profile_minio_retrieve.py:275-303 | a candidate of the customer is selected with the metadata of its own directory; latest/ is asked only when a dated directory has none |
| LookupStages.CandidateRefused | app/services/batch_profile_minio_retrieve.py:336-360 | a candidate that is no object is an error, one of somebody else leaves it to the scan, with its errors |
| LookupStages.SlicedEntry | app/services/batch_profile_minio_retrieve.py:243-251 | without ranged GET the same bytes are sliced from the whole object |
| LookupStages.MalformedEntry | app/services/batch_profile_minio_retrieve.py:232-253 | an entry that is not a pair is nothing, one that cannot be unpacked is an error |
| LookupStages.MetadataRead | app/services/batch_profile_minio_retrieve.py:305-334 | encrypted columns and column names are those of the metadata, none without it |
| LookupStages.NobodysRecord | app/services/batch_profile_minio_retrieve.py:84-87 | a record without customer number is nobody's |
| LookupStages.NumberCompared | app/services/batch_profile_minio_retrieve.py:97 | a customer number that is no string is compared by its text |
| LookupTheorems.SelectedIsRight | app/services/batch_profile_minio_retrieve.py:255-360 | for any index contents a selected record is the customer's, is the first candidate or the first match of the same directory's bulk file, and that directory's metadata decided |
| LookupTheorems.ScanFound | app/services/batch_profile_minio_retrieve.py:344-353 | what the scan returns is the first line that holds the customer |
| LookupTheorems.ScanNothing | app/services/batch_profile_minio_retrieve.py:344-353 | the scan finds nothing exactly when no line holds the customer or stops it |
| LookupTheorems.SelectedExactly | app/services/batch_profile_minio_retrieve.py:255-360 | when a record is selected, both ways, for both kinds of directory and with the fallback: without a candidate no bulk file is read |
| LookupTheorems.IndexedIsSelected | app/services/batch_profile_minio_retrieve.py:223-261 | a correct index entry is always followed, whatever else the store holds |
| LookupTheorems.IndexedIsScan | app/services/batch_profile_minio_retrieve.py:223-355 | the correctly indexed line of a customer is selected, and a first-match scan selects the same exactly when that line holds no inner boundary and nothing before it stops the scan, unless another piece is the very same record |
| LookupTheorems.UniqueIsScan | app/services/batch_profile_minio_retrieve.py:336-355 | among unique customers the scan finds the record exactly when its line holds no inner boundary, and otherwise nothing |
| LookupTheorems.ScanMissesRecord | app/services/batch_profile_minio_retrieve.py:345 | a record split by a boundary inside a string is selected through the index and missed by the scan |
| LookupTheorems.LookupIsScan | app/services/batch_profile_minio_retrieve.py:223-355 | with a complete index the lookup is the scan, for customers in the file and absent ones alike, in both kinds of directory |
| LookupTheorems.NewestIsGreatest | app/services/batch_profile_minio_retrieve.py:165-168 | the fallback date is one of those listed and none is greater |
| Shards.PrefixEnds | app/services/batch_profile_utils.py:104-125 | for every string three characters: its last three, or all of it behind zeros, which go after a sign |
| Shards.PrefixIsModulo | app/services/batch_profile_utils.py:104-125 | for digit strings, the number modulo one thousand in three digits |
| Shards.SameShard | app/services/batch_profile_utils.py:104-125 | two customers share a shard exactly when their numbers agree modulo one thousand |
| Shards.ShardIsFull | app/services/batch_profile_minio_retrieve.py:195-213 | the shard lookup is the full-index lookup, and every entry is in exactly one shard |
| Bucket.PlaceBytes | app/services/batch_profile_minio_retrieve.py:234-251 | the bytes at the offset of a line are the encoding of that line |
| Bucket.CorePiece | app/services/batch_profile_minio_retrieve.py:345-347 | a text whose core holds no boundary has that core as one piece, behind blank pieces only |
| Documents.ValueRoundTrip | app/services/batch_profile_utils.py:219-232 | decrypting a stored value gives what was encrypted, and the minimum-length test never takes it for plain text |
| Documents.DecryptedFields | app/services/batch_profile_utils.py:251-282 | field by field: each column decrypted or removed, every other field untouched |
| Documents.FlagReads | app/services/batch_profile_utils.py:315-317 | which stored flags ask for decryption and which say plain text, for every type of value |
| Documents.FlaggedRoundTrip | app/services/batch_profile_utils.py:285-329 | a document whose flag is absent, null, true or a number other than zero comes back from encryption |
| Documents.PlainTextKept | app/services/batch_profile_utils.py:315-317 | a document flagged false or zero is returned as it is, whatever the columns and the key |
| Documents.ForeignValueKept | app/services/batch_profile_utils.py:219-240 | a value that is not Base64, too short or has a tag that does not verify stays as it is |
| Documents.DocumentRoundTrip | app/services/batch_profile_utils.py:285-329 | decrypting inverts column-wise encryption in flat, nested and mixed documents unless the flag says plain text |
| Documents.DocumentOthersKept | app/services/batch_profile_utils.py:311-329 | fields outside the columns keep their value at both levels |
| Documents.KeyMissing | app/services/batch_profile_utils.py:254-266 | without a key exactly the columns that look encrypted disappear |
| ColumnNames.MappingNames | app/services/batch_profile_utils.py:354-378 | outside data and inside a nested data exactly the columns with a truthy name and no object become an object of that name and the original value; all others stay |
| ColumnNames.MappingChanges | app/services/batch_profile_utils.py:354-378 | such a column changes the document |
| ColumnNames.MappingIdempotent | app/services/batch_profile_utils.py:354-378 | mapping twice is mapping once, on every document |
| ColumnNames.MappingErases | app/services/batch_profile_utils.py:354-378 | erasing the wrappers gives the document back exactly when `data`, if present, is an object |
| EndToEnd.RetrieveRecord | app/services/batch_profile_minio_retrieve.py:100-372 | the whole function: selection, decryption with its swallowed and its uncaught errors, column names |
| EndToEnd.UploadedMatches | app/services/batch_profile_minio_retrieve.py:71-97 | an uploaded record passes the check for its own customer and for no other, with CUSNO encrypted or not |
| EndToEnd.SelectedIsRequested | app/services/batch_profile_minio_retrieve.py:255-360 | among uploads, whatever the indexes say, the selected record was uploaded for the requested customer |
| EndToEnd.RetrieveUploaded | app/services/batch_profile_minio_retrieve.py:223-372 | retrieving a customer whose index entry is the byte range of an uploaded record gives that record in plain text with its columns named |
| EndToEnd.RetrievePlainText | app/services/batch_profile_minio_retrieve.py:223-372 | a correctly indexed record flagged as plain text comes back as it is stored, with its columns named |
| EndToEnd.UnreadableFlag | app/services/batch_profile_minio_retrieve.py:362-366 | a flag that is no number leaves the record as it is stored, one of the wrong type is an error |
| Payload.PositionsKept | app/logger_config.py:92-109 | keys, list lengths and exempt values are kept position by position down to the bound, with ciphertexts, None and the marker at the leaves |
| Payload.NothingLeaks | app/logger_config.py:92-109 | no leaf survives outside the exempt keys |
| Payload.FailsExactly | app/logger_config.py:64-118 | the payload becomes an error text exactly when there is no key or some leaf within the bound cannot be encrypted |
| Payload.PayloadEncrypted | app/logger_config.py:54-111 | both of the above for a whole payload, on any graph, cyclic ones included |

## Left out

* FastAPI routing, schemas, dependency wiring, log handlers and formatters, configuration: plumbing. Answers are
  modelled before pydantic validates them, so that a stored reference fits the answer's schema is not claimed:
  the patch validation does not look inside lists (`app/services/session_service.py:106-111`).
* `SessionPolicy` (`app/core/policy.py`): the handlers do not call it, and END is not terminal in the service.
* Redis Sentinel, the MinIO client, the key stub and the HSM: foreign calls. A failed GET is an absent object, and
  the outcome of a ranged GET outside the object is arbitrary.
* JSON text, JWT signatures and AES-GCM themselves: functions with round-trip laws, tokens as records.
* Wrong or foreign contents of Redis: the store holds only what the service wrote, so decoding errors of stored
  JSON are modelled in the readers but never reached by a run.
* `delete`, `delete_turns`, `list_all_sessions`, `get_merged_profile`, `_merge_profiles`,
  `get_batch_and_realtime_profiles_by_user_id`: easy members, not called by the handlers modelled here.
* The archive id and the timestamps inside turn documents are numbers and strings without their ISO format.
* Contents under interleaving: `Interleaving` speaks of token bindings and `DeadlineRace` of one late update.
- RedisAccess.RedisSessionRepository.Create: the state, the statuses, the profile and the customer profile are fixed to
  what `create_session` passes, its only caller here.
- Services.SessionService.ResolveSession: the stored last event is returned as parsed; whether pydantic accepts it
  (`app/services/session_service.py:211-214`) is not modelled.
* The normalisation of `data_type` to a prefix, the bucket name and the log lines of the lookup.
* Ciphertexts of log payloads have no tag (`app/logger_config.py:75-80`) and are not related to
  `decrypt_field_value`. A pydantic model whose dump itself raises is not modelled.
