# pcbook catalog service — a Dafny model

This project models the core of the pcbook laptop-catalog gRPC service. That core has three parts:

- **Stores.** An in-memory laptop store, a rating store and a user store.
  - The laptop store inserts if absent, finds by id, and runs a filtered search that polls a context and calls back each qualifying laptop.
  - The rating store keeps a running count and sum per laptop.
  - The user store keeps copies of users by username.
- **User value.** A user's password is hashed by an abstract hasher.
- **Handlers.**
  - `CreateLaptop`, `SearchLaptop`, `UploadImage` and `RateLaptop` on the laptop service.
  - `Login` on the auth service.

The model follows the form of the Go code:

- **Classes with fields.** A store that the code updates in place is a class whose fields the methods reassign. A laptop server holds its two stores.
- **Values.** Records the code copies (laptops, users) are datatypes.
- **Rating objects.** A rating is a class, because the store hands out its own object.
- **Loops.** Loops are methods with loop invariants.
  - Each streaming handler is proved equal to a reference function of its inputs: `Walk`, `UploadSpec` or `RateFrom`.
  - The service's properties are lemmas about those functions.

**Inputs the code does not control:**

- A gRPC context is an oracle from checkpoint number to what `ctx.Err()` reports at that checkpoint.
- A request stream is the sequence of messages the client sent, plus how it ended (end of stream or a receive failure).
- Whether each send fails is a parameter.

**Libraries the model does not see** become parameters that may fail:

| library | in the model |
|---|---|
| `copier.Copy` | `copyFails` |
| `uuid.Parse` | `isUuid` |
| `uuid.NewRandom` | `newId` |
| bcrypt | `PasswordHasher` |
| the JWT manager's `Generate` | `generate` |
| the disk image store | `saveImage` |

Go's `uint32` count and `uint64` bit arithmetic wrap explicitly (`Prelude.Inc32`, `Prelude.Mul64`). `float64` values are `real`.

A few behaviours of the code are worth stating plainly, since they differ between handlers or stores:

- The laptop and user stores hand out copies, but the rating store hands out its own object (`service/rating_store.go:48`). `RatingStore.ReturnedRatingIsShared` shows that a caller's write reaches the stored rating.
- `SearchLaptop` reports every error from the store's search as `Internal`, including a cancelled or expired context (`service/laptop_server.go:110-111`).
- `RateLaptop` answers an unknown laptop with `NotFound` (`service/laptop_server.go:220-221`), while `UploadImage` answers one with `InvalidArgument` (`service/laptop_server.go:128-134`).
- `Login` answers a wrong password with `NotFound` (`service/auth_server.go:35-38`), the same answer as an unknown username.

Some status messages are written in Thai in the code. The model gives them short English messages; for example, the CreateLaptop UUID error becomes "laptop ID is not a valid UUID".

## Model

| member | source | states |
|---|---|---|
| Prelude.Inc32 | service/rating_store.go:42 | `Count++` on a `uint32`: one more below 2^32 - 1, and 0 after 2^32 - 1 |
| Prelude.Mul64 | service/laptop_store.go:131-139 | a `uint64` product (a left shift is a product with 2^k) equals the exact product whenever that fits below 2^64 |
| Rpc.ContextError | service/laptop_server.go:246-255 | no error exactly when the context is live; Canceled gives `Canceled` "request is canceled"; DeadlineExceeded gives `DeadlineExceeded` "deadline is exceeded" |
| LaptopStore.ToBit | service/laptop_store.go:124-143 | the size in bits is value × 2^0, 2^3, 2^13, 2^23, 2^33 or 2^43 for bit, byte, kilo-, mega-, giga- or terabyte, modulo 2^64; any other unit gives 0 |
| LaptopStore.ToBitExact | service/laptop_store.go:124-143 | below 2^64 the result is the exact bit count |
| LaptopStore.ToBitUnitsAreBinaryMultiples | service/laptop_store.go:131-139 | 1024 of each unit normalise like one of the next unit up, and 8 bits like one byte |
| LaptopStore.ToBitWraps | service/laptop_store.go:136-137 | the shifts wrap: 2^31 GB gives 0 bits, and 2^31 - 1 GB gives 2^64 - 2^33 |
| LaptopStore.IsQualified | service/laptop_store.go:108-122 | the guard chain: price, then cores, then clock, then normalised RAM; its meaning, the conjunction of the four bounds, is stated by `QualifiedMeansAllBounds` |
| LaptopStore.QualifiedMeansAllBounds | service/laptop_store.go:108-122 | `isQualified` holds iff price ≤ max, cores ≥ min, min GHz ≥ min, and normalised RAM ≥ normalised minimum RAM |
| LaptopStore.UnknownUnitNeverMeetsMinimum | service/laptop_store.go:118-141 | RAM in an unrecognised unit normalises to 0 and fails any nonzero minimum |
| LaptopStore.TestFilterCases | service/laptop_client_test.go:50-85 | under the test filter, the price-2500, 2-core and 2.0 GHz laptops are rejected whatever else they hold; the two laptops the test expects are accepted |
| LaptopStore.Walk | service/laptop_store.go:80-102 | the search loop over one key order, the reference for `Search`: it keeps the calls already made, adds at most one per key, and every record it calls back with qualifies |
| LaptopStore.WalkAppend | service/laptop_store.go:80-100 | running the search loop over two key sequences is running it over the first and, unless that stopped, over the second |
| LaptopStore.WalkCallsSelected | service/laptop_store.go:89-99 | a search that ends without error has called back exactly the qualifying records, in enumeration order |
| LaptopStore.WalkSucceeds | service/laptop_store.go:80-102 | with the context live at every checkpoint, no copy failing and no callback failing, the search ends without error |
| LaptopStore.WalkStopsAtDoneContext | service/laptop_store.go:84-87 | once the context is done at checkpoint j, the search returns that context error with only the calls made before j, unless it stopped earlier |
| LaptopStore.WalkCallbackError | service/laptop_store.go:95-98 | a callback error stops the search at once: it is returned for the last call only, and every earlier call succeeded |
| LaptopStore.SelectCount | service/laptop_store.go:80-100 | over distinct keys of an id-keyed map, each record is selected once if it qualifies and is reached, and never otherwise |
| LaptopStore.SearchReportsEachQualifiedOnce | service/laptop_store.go:72-103 | a search that completes over all keys calls back each qualifying stored record exactly once and no other record, whatever the order |
| LaptopStore.SearchWithoutFailures | service/laptop_client_test.go:96-106 | with nothing failing, the search completes and the callback receives each qualifying record exactly once |
| LaptopStore.Lookup | service/laptop_store.go:62-70 | an absent id gives "nothing", never an error; a present id gives the stored record, unless the copy fails |
| LaptopStore.LookupKeepsId | service/laptop_store.go:52-70 | in an id-keyed store, the record found carries the id it was looked up by |
| LaptopStore.InMemoryLaptopStore.constructor | service/laptop_store.go:34-38 | the store starts empty |
| LaptopStore.InMemoryLaptopStore.DeepCopy | service/laptop_store.go:145-153 | the copy equals the record unless the copier fails, which gives an error |
| LaptopStore.InMemoryLaptopStore.Save | service/laptop_store.go:41-60 | an id already present gives `ErrAlreadyExists` and leaves the map unchanged; a failed copy leaves it unchanged; otherwise exactly key `laptop.id` is added, mapped to the record; records stay keyed by their id |
| LaptopStore.InMemoryLaptopStore.Find | service/laptop_store.go:62-70 | answers as `Lookup` over the current map, and changes nothing |
| LaptopStore.InMemoryLaptopStore.Search | service/laptop_store.go:72-103 | visits distinct stored keys in some order; its error and callback calls are those of `Walk` over that order; without error every key was visited; the store is unchanged |
| RatingStore.AverageOf | service/laptop_server.go:233 | `Sum / float64(Count)` is a finite mean exactly when the count is nonzero, and mean × count = sum |
| RatingStore.Added | service/rating_store.go:35-44 | the first score gives {1, score}; a later one increments the count (wrapping) and adds the score to the sum |
| RatingStore.AccumulateSnoc | service/rating_store.go:35-46 | one more `Add` is one more step of the accumulation |
| RatingStore.AccumulateCounts | service/rating_store.go:31-49 | after n adds, Count = n modulo 2^32 and Sum = the sum of the scores |
| RatingStore.AverageDefinedBelowWrap | service/rating_store.go:36-44 | below 2^32 adds, Count = n ≥ 1, so the average is defined and equals sum / n |
| RatingStore.RatingTestScores | service/laptop_client_test.go:196-221 | scores 8, 7.5, 10 give counts 1, 2, 3 and averages 8, 7.75, 8.5 |
| RatingStore.TracksAdd | service/rating_store.go:35-46 | adding a score keeps every tally equal to the accumulation of its id's recorded scores |
| RatingStore.Rating.constructor | service/rating_store.go:37-40 | a new rating holds the given count and sum |
| RatingStore.Rating.Increment | service/rating_store.go:42-43 | the object's count goes up by one (wrapping) and the score is added to its sum |
| RatingStore.InMemoryRatingStore.constructor | service/rating_store.go:24-28 | the store starts with no ratings |
| RatingStore.InMemoryRatingStore.Add | service/rating_store.go:31-49 | creates {1, score}, a fresh object, or increments the stored object; returns the stored object itself; every other id keeps its object, and an existing id keeps its own; `Repr` only grows; only that id's tally and history change; each entry stays the accumulation of all scores added for its id |
| RatingStore.InMemoryRatingStore.Increment | service/rating_store.go:41-46 | the existing object is updated in place; the map of objects is unchanged; no other tally changes |
| RatingStore.InMemoryRatingStore.Create | service/rating_store.go:36-40 | a fresh object {1, score} is stored under the new id and added to `Repr`; every other id keeps its object and tally |
| RatingStore.ReturnedRatingIsShared | service/rating_store.go:46-48 | writing to the object `Add` returned changes the stored rating |
| Users.NewUser | service/user.go:19-36 | fails exactly when hashing fails; otherwise keeps username and role and stores the hash of the password |
| Users.IsCorrectPassword | service/user.go:40-44 | the hasher's comparison of the stored hash with the password; `NewUserAcceptsItsPassword` and `CloneKeepsPasswordCheck` state its properties |
| Users.NewUserAcceptsItsPassword | service/user.go:19-44 | with a hasher that accepts its own hashes, a new user's password check passes for the password it was made with |
| Users.Clone | service/user.go:48-55 | the copy has the same username, hash and role; as a value it shares nothing with the original |
| Users.CloneKeepsPasswordCheck | service/user.go:40-55 | a copy answers every password check as the original does |
| UserStore.FindIn | service/user_store.go:48-59 | an absent username gives "nothing", never an error; a present one gives a copy equal to the stored user |
| UserStore.InMemoryUserStore.constructor | service/user_store.go:25-29 | the store starts empty |
| UserStore.InMemoryUserStore.Save | service/user_store.go:33-44 | a username already present gives `ErrAlreadyExists` and leaves the map unchanged; otherwise exactly that username is added, mapped to a copy of the user |
| UserStore.InMemoryUserStore.Find | service/user_store.go:48-59 | answers as `FindIn` and changes nothing; a user found carries the username asked for |
| UserStore.FindAfterSave | service/user_store.go:33-59 | a saved user is found again with equal fields |
| UserStore.SaveKeepsOthers | service/user_store.go:42 | saving one user changes no other username's answer |
| UserStore.SaveTwice | service/user_store.go:37-42 | a second save of the same username fails with `ErrAlreadyExists`, and the first user stays stored |
| LaptopServer.InfoOf | service/laptop_server.go:123-124 | a chunk message in first position yields empty laptop id and image type |
| LaptopServer.ChunkOf | service/laptop_server.go:157-158 | a metadata message in chunk position yields no bytes |
| LaptopServer.UploadSpec | service/laptop_server.go:117-191 | `UploadImage` over the stream: no message is `Unknown`; a failed lookup `Internal`; an unknown laptop `InvalidArgument`; then the chunk loop, the image-store call and the reply; the lemmas below state its promises |
| LaptopServer.ReceiveChunks | service/laptop_server.go:140-171 | the chunk loop only ever succeeds with at most 1 MiB received |
| LaptopServer.ReceiveChunksAll | service/laptop_server.go:140-171 | with the context live, the loop receives every remaining byte if the running total never exceeds 1 << 20, and otherwise fails with `InvalidArgument`; exactly 1 MiB is accepted |
| LaptopServer.ReceiveChunksStopsAtDoneContext | service/laptop_server.go:140-144 | with the context done at checkpoint j and live before, the chunk loop fails with that context's error when the chunks fit, and otherwise with it or `InvalidArgument` |
| LaptopServer.UploadUnknownLaptop | service/laptop_server.go:128-134 | an unknown laptop id gives `InvalidArgument`, saves nothing, and gives the same answer whatever follows the first message |
| LaptopServer.UploadSavesOnlyWhatFits | service/laptop_server.go:162-182 | whatever the stream, the image store never receives more than 1 MiB, and a successful reply reports the size that was saved |
| LaptopServer.UploadWholeImage | service/laptop_server.go:140-182 | with the context live, chunks totalling at most 1 MiB are saved, concatenated, under the named laptop and type, and the reply carries the store's id and the total; more than 1 MiB fails with `InvalidArgument` and saves nothing |
| LaptopServer.UploadStopsAtDoneContext | service/laptop_server.go:140-144 | an upload of a stored laptop whose context is done at checkpoint j saves nothing, and when its chunks fit fails with `Canceled` or `DeadlineExceeded` as that checkpoint reports |
| LaptopServer.ResponseFor | service/laptop_server.go:230-234 | a response carries the laptop id, the count of its accumulated scores and their average `Sum / float64(Count)` |
| LaptopServer.RateFrom | service/laptop_server.go:194-243 | the rating loop sends at most one response per remaining request |
| LaptopServer.RateStep | service/laptop_server.go:195-239 | a request that is received, found, added and answered continues the loop with its score recorded and its response sent |
| LaptopServer.RateHalts | service/laptop_server.go:195-222 | otherwise the loop ends with no further response: a done context ends it with `Canceled` or `DeadlineExceeded` as reported; without error exactly at end of stream with a live context; with `NotFound` exactly for an unknown laptop |
| LaptopServer.RateAnswersInOrder | service/laptop_server.go:194-243 | one response per request, in order, each for that request's laptop and each after a live checkpoint |
| LaptopServer.RateEnds | service/laptop_server.go:194-243 | success means every request was answered and the stream ended cleanly; `NotFound` names the request after the last one answered; a context done at that checkpoint gives its `Canceled` or `DeadlineExceeded` |
| LaptopServer.HistoryAfterScores | service/rating_store.go:35-46 | after the first i requests, a laptop's recorded scores are its earlier scores followed by those the requests gave it |
| LaptopServer.RateCountsEveryScore | service/laptop_server.go:225-234 | each response's count and average are those of all scores given so far to its laptop, earlier calls included |
| LaptopServer.ExpectedFromEmpty | service/laptop_server.go:230-234 | on an empty rating store, the expected count is the number of requests so far for that laptop (mod 2^32) and the average is their mean |
| LaptopServer.RateFromEmptyStore | service/laptop_server.go:194-243 | on an empty rating store, the j-th response reports how many requests up to j rated its laptop and the mean of their scores |
| LaptopServer.RateClientTest | service/laptop_client_test.go:196-221 | scores 8, 7.5, 10 for one laptop get three responses with counts 1, 2, 3 and averages 8, 7.75, 8.5, then a clean end |
| LaptopServer.SendCallback | service/laptop_server.go:95-108 | the search callback fails exactly when the stream's context is done or the send fails |
| LaptopServer.LaptopServer.constructor | service/laptop_server.go:28-34 | the server holds the given stores |
| LaptopServer.LaptopServer.CreateLaptop | service/laptop_server.go:37-81 | a non-UUID id gives `InvalidArgument` before anything else; an empty id is replaced by a generated one (generator failure gives `Internal`); a done context gives `Canceled` or `DeadlineExceeded` without saving; `ErrAlreadyExists` maps to `AlreadyExists` and any other save error to `Internal`; success returns the non-empty final id and stores the record |
| LaptopServer.LaptopServer.SearchLaptop | service/laptop_server.go:84-114 | the records sent are those the store's search called back, less the one whose send failed; every error, cancellation included, becomes `Internal` |
| LaptopServer.LaptopServer.UploadImage | service/laptop_server.go:117-191 | the handler's result, and the image-store call it makes, are those of `UploadSpec` |
| LaptopServer.LaptopServer.RateLaptop | service/laptop_server.go:194-243 | the error and responses are those of `RateFrom` from the store's history, and the store records each score added |
| AuthServer.Login | service/auth_server.go:27-50 | a store error gives `Internal` "cannot find user"; an unknown username or a wrong password gives `NotFound` "incorrect username/password"; a failed token generation gives `Internal` "cannot generate access token"; success exactly for a found user with a matching password and a generated token, and the reply carries that token |
| AuthServer.LoginHidesExistence | service/auth_server.go:35-38 | an unknown username and a wrong password get the same answer |
| AuthServer.InMemoryLookup | service/user_store.go:48-59 | the in-memory store never fails a lookup and answers as `FindIn` |
| AuthServer.LoginAfterSignUp | service/auth_server.go:29-49 | a user made by `NewUser` and saved logs in with the same password and receives the token generated for it |

## Left out

- Locking (`sync.RWMutex`): each store operation is one atomic method; goroutine interleavings are not modelled.
- Logging and the one-second `time.Sleep` in the search loop: they are side output and timing only.
- gRPC transport and protobuf encoding. Streams are message sequences. `Send` and `SendAndClose` failures are parameters. Status messages keep only their fixed text, not the formatted error detail.
- Floating point: prices, clock speeds, scores, sums and averages are `real`. IEEE rounding is not modelled; the test values 8, 7.75 and 8.5 are exact in binary. An average over a count of 0 is `NotFinite`, standing for Go's infinity or NaN.
- The laptop record carries only the fields the core reads. `details` stands for the rest of the message.
- Nil sub-messages (a laptop without a CPU or RAM, a filter without a minimum RAM) are not modelled. Each record always has its fields.
- The context oracles are not forced to be monotone. A context may report done at one checkpoint and live at a later one, which a real context never does. Every property is proved for all oracles, so it holds for monotone ones too.
- `CreateLaptop`'s write of the generated id into the request is returned as the updated record (`request`). The request object's other aliases are not modelled.
- The image buffer's `Write` error is not modelled, because `bytes.Buffer.Write` never returns one.
- `RatingStore.InMemoryRatingStore.Add`: the Go signature also returns an error, which is always nil. The model returns only the rating.
- `LaptopServer.LaptopServer.SearchLaptop`: the callback's context poll and send outcome are their own oracles, separate from the context polled at the head of each search iteration.
- The JWT manager, the disk image store and the auth interceptors are not part of this model. Only their interfaces are used, as abstract parameters.
- The client and server command-line programs, the sample data generator and the serializer files are outside the core.

## Findings

None.
