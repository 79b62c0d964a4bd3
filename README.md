# Review form and user controller of a small shop, modelled in Dafny

This project models two pieces of decision logic from a small e-commerce demo.

- **The product detail page** (`IndividualProductPage`, file `individual_product_page.dfy`). The React component keeps eight state slots: `product`, `reviewContent`, `reviewerName`, `rating`, `isLoggedIn`, `remainingChars`, `isReviewFormVisible` and `reviews`. Its event handlers update these slots.
  - The record `PageState` holds the slots. The reducer `Step` gives the effect of each event: the seven handlers, plus the two fetches completing.
  - `Render` gives what is drawn: the loading message, the login prompt, the "Write a Review" button, the form with its character counter, and the review list or "No reviews yet".
  - `Enabled` says which events can happen. A handler fires only while its element is on screen. The textarea holds at most 100 UTF-16 code units. The star widget reports 1 to 5.
  - Class `ProductPage` holds the same slots as fields. It has one method per handler. Each method states the new value of the slots it sets, says that the other slots are `unchanged`, and is proved equal to `Step`.
  - Lemmas cover each handler's postconditions and prove that an invariant holds along every admissible run of events. The invariant is: rating in 0..5, counter in 0..100, draft at most 100 code units, form open only while logged in, reviewer name always empty.
- **The user controller** (`UserController`, file `user_controller.dfy`). It has registration (`create`), the credential check (`login`) and the lookups `one` and `all`, over a user table keyed by username.
  - `CreateResult` and `LoginResult` are the decision rules as functions. Class `UserTable` has the table as a `map` field. Its `Create` method changes the table, and it is proved equal to `CreateResult`. `Login`, `One` and `All` have no `modifies` clause, so Dafny proves that they only read the table.
  - `Argon2` stands for the hashing library: `hash` and `verify` are passed in as functions. `Sound` states the library's promise that `verify(hash(p), p)` holds. `Faults` says whether the awaited hashing call or the database insert throws.

`wrappers.dfy` holds `Option`, which plays JavaScript's `null` and absent fields.

Behaviour of the code worth noting:

- Submitting a review does not hide the form. `setIsReviewFormVisible` is not called in the submit handler, so the model keeps `isReviewFormVisible` unchanged.
- Submitting does not reset the character counter (see Findings).
- The table is keyed by username, because `login` looks rows up with `findByPk(username)`. Registering a username that is already present therefore makes the insert throw, and the response is 500. The database schema is not part of this model.
- Lengths are JavaScript lengths: `value.length` and the textarea's `maxLength` count UTF-16 code units, so a character outside the Basic Multilingual Plane, such as an emoji, counts twice. `Utf16Length` gives this count, and the counter and the length bound are stated with it.
- Setter calls in one handler take effect together and the page re-renders between events, so events are modelled one after another.

## Model

| member | source | states |
|---|---|---|
| `IndividualProductPage.Step` | frontend/src/pages/IndividualProductPage.js:20-90 | For each slot, the events that can change it: `product` only by the product fetch, `reviews` only by the reviews fetch, `isLoggedIn` only by login (and never back to false), `reviewerName` only by submit, form visibility only by "Write a Review" (on) and cancel (off), rating only by a star click, cancel or submit, content only by a content change, cancel or submit, and the counter only by a content change, a textarea click, cancel, or the corrected submit |
| `IndividualProductPage.Utf16Length` | frontend/src/pages/IndividualProductPage.js:30 | The length JavaScript reports for a string lies between its number of characters and twice that, and equals the number of characters exactly when no character lies outside the Basic Multilingual Plane |
| `IndividualProductPage.BmpLength` | frontend/src/pages/IndividualProductPage.js:157 | A string of Basic Multilingual Plane characters has one code unit per character |
| `IndividualProductPage.AstralCharacterCountsTwice` | frontend/src/pages/IndividualProductPage.js:28-31 | An emoji has length 2, so typing it as the whole draft leaves 98, not 99 |
| `IndividualProductPage.Submit` | frontend/src/pages/IndividualProductPage.js:69-72 | Submit clears the reviewer name, the rating and the content, and leaves product, login state, reviews and form visibility alone; afterwards the counter invariant holds exactly when the rule is the corrected one or the counter already read 100 |
| `IndividualProductPage.Enabled` | frontend/src/pages/IndividualProductPage.js:125-190 | Only the fetches can complete while "Loading" is shown. Login is possible exactly when a product is shown and the user is logged out. "Write a Review" is possible exactly when a product is shown and the user is logged in. Cancel, submit and textarea clicks are possible exactly while the form is shown. A content change additionally needs at most 100 code units (the `maxLength` of line 156). A star click additionally needs a value in 1..5 (the `starCount` of line 141) |
| `IndividualProductPage.Render` | frontend/src/pages/IndividualProductPage.js:83-205 | "Loading" exactly when `product` is null. Otherwise: the login prompt exactly when logged out; the form exactly when logged in and the form is visible; inside it, the counter text exactly when `remainingChars < 100`, showing that value; "No reviews yet" exactly when the review list is empty, otherwise the reviews themselves |
| `IndividualProductPage.InitialState` | frontend/src/pages/IndividualProductPage.js:10-17 | The initial slot values satisfy the invariant and the counter invariant, and the page renders "Loading" |
| `IndividualProductPage.CancelRestoresCounter` | frontend/src/pages/IndividualProductPage.js:20-25 | Cancel hides the form and sets rating 0, empty content and counter 100, so the counter invariant holds; login state, reviewer name, reviews and product are unchanged |
| `IndividualProductPage.ContentChangeSetsCounter` | frontend/src/pages/IndividualProductPage.js:28-31 | A content change to `v` (at most 100 code units, the textarea's maxLength) sets the content to `v` and the counter to 100 minus the UTF-16 length of `v`, which lies in 0..100; nothing else changes |
| `IndividualProductPage.TextareaClickSetsCounter` | frontend/src/pages/IndividualProductPage.js:157 | A click on the textarea sets the counter to 100 minus the UTF-16 length of `reviewContent` and changes nothing else, so it re-establishes the counter invariant |
| `IndividualProductPage.SubmitClearsDraft` | frontend/src/pages/IndividualProductPage.js:60-73 | Submit clears the reviewer name, the rating (to 0) and the content; the form stays as visible as it was; as written the counter is left unchanged; the corrected submit restores the counter invariant |
| `IndividualProductPage.SubmitKeepsCounterOnlyWhenEmpty` | frontend/src/pages/IndividualProductPage.js:69-72 | From a state where the counter invariant holds, the submit as written keeps it if and only if the draft was already empty |
| `IndividualProductPage.LogInIsIdempotent` | frontend/src/pages/IndividualProductPage.js:77-80 | Login sets `isLoggedIn` to true, changes nothing else, and a second login changes nothing |
| `IndividualProductPage.StarClickSetsRating` | frontend/src/pages/IndividualProductPage.js:88-90 | A star click from the 5-star widget sets the rating to that value, in 1..5, and changes nothing else |
| `IndividualProductPage.WriteReviewNeedsLogin` | frontend/src/pages/IndividualProductPage.js:125-130 | "Write a Review" can be clicked only when a product is shown and the user is logged in; it opens the form and changes nothing else |
| `IndividualProductPage.StepKeepsInvariant` | frontend/src/pages/IndividualProductPage.js:125-190 | Every enabled event keeps the invariant (rating in 0..5, draft at most 100 code units, counter in 0..100, form open only while logged in, empty reviewer name), under either submit rule |
| `IndividualProductPage.CorrectedStepKeepsCounter` | frontend/src/pages/IndividualProductPage.js:20-31 | With the corrected submit, every enabled event keeps `remainingChars` equal to 100 minus the UTF-16 length of `reviewContent` |
| `IndividualProductPage.RunKeepsInvariant` | frontend/src/pages/IndividualProductPage.js:125-190 | The invariant holds after every admissible sequence of events that starts in a state satisfying it |
| `IndividualProductPage.CorrectedRunKeepsCounter` | frontend/src/pages/IndividualProductPage.js:60-73 | With the corrected submit, the counter invariant and the invariant hold after every admissible sequence of events |
| `IndividualProductPage.SubmitLeavesStaleCounter` | frontend/src/pages/IndividualProductPage.js:69-72 | The run "product loads, log in, Write a Review, type abc, submit" is admissible. As written, it ends with an empty open form showing "97 characters remaining". With the corrected submit, the counter invariant holds and no counter text is shown |
| `IndividualProductPage.ProductPage.constructor` | frontend/src/pages/IndividualProductPage.js:9-17 | The slots start as the `useState` calls give them |
| `IndividualProductPage.ProductPage.HandleCancelReview` | frontend/src/pages/IndividualProductPage.js:20-25 | Sets form hidden, rating 0, content empty and counter 100; the other slots are unchanged |
| `IndividualProductPage.ProductPage.HandleReviewContentChange` | frontend/src/pages/IndividualProductPage.js:28-31 | Sets the content to the new value and the counter to 100 minus its length; the other slots are unchanged |
| `IndividualProductPage.ProductPage.HandleTextareaClick` | frontend/src/pages/IndividualProductPage.js:157 | Sets the counter to 100 minus the content length; the other slots are unchanged |
| `IndividualProductPage.ProductPage.HandleReviewSubmit` | frontend/src/pages/IndividualProductPage.js:60-73 | Returns the logged draft (product id, reviewer name, rating, content, as they were before), then clears name, rating and content; visibility and counter are unchanged |
| `IndividualProductPage.ProductPage.HandleLogin` | frontend/src/pages/IndividualProductPage.js:77-80 | Sets `isLoggedIn`; the other slots are unchanged |
| `IndividualProductPage.ProductPage.OnStarClick` | frontend/src/pages/IndividualProductPage.js:88-90 | Sets the rating to the clicked value; the other slots are unchanged |
| `IndividualProductPage.ProductPage.HandleWriteReview` | frontend/src/pages/IndividualProductPage.js:127 | Sets the form visible; the other slots are unchanged |
| `IndividualProductPage.ProductPage.SetProduct` | frontend/src/pages/IndividualProductPage.js:40 | The product fetch completing stores the response, which may be null; the other slots are unchanged |
| `IndividualProductPage.ProductPage.SetReviews` | frontend/src/pages/IndividualProductPage.js:53 | The reviews fetch completing stores the list; the other slots are unchanged |
| `UserController.Truthy` | api/src/controllers/user.controller.js:33 | A field fails the `!` test when it is absent or the empty string, and passes when it is a non-empty string |
| `UserController.AllFieldsPresent` | api/src/controllers/user.controller.js:33 | The request is valid exactly when username, password, firstname, lastname and email are each present and non-empty; when it is not, one of those five is absent or empty. `id` is not checked |
| `UserController.UserTable.constructor` | api/src/controllers/user.controller.js:1 | The table the handlers share starts empty, with every row stored under its own username |
| `UserController.CreateResult` | api/src/controllers/user.controller.js:30-60 | Status is 201, 400 or 500. Status is 400 with "All fields are required." exactly when a required field is missing or empty, and then nothing is hashed and the table is unchanged. The password is hashed exactly when all fields are present. Status is 201 exactly when neither hashing nor the insert throws and the username is new; the table then gains the row `username`, `hash(password)`, `firstname`, `lastname`, `email`, `id`, which is the response body. Status 500 carries the generic error and leaves the table unchanged |
| `UserController.UserTable.Create` | api/src/controllers/user.controller.js:30-60 | The response, the new table and whether hashing happened are those of `CreateResult`; the table stays keyed by username |
| `UserController.LoginResult` | api/src/controllers/user.controller.js:19-27 | The result is a user exactly when the username is in the table and `verify(stored digest, password)` holds, and that user is the stored row; otherwise null |
| `UserController.UserTable.Login` | api/src/controllers/user.controller.js:19-27 | Returns `LoginResult` without changing the table; `verify` is called exactly when the username is known, as the logical or short-circuits on a null user |
| `UserController.FailedLoginsLookAlike` | api/src/controllers/user.controller.js:22-24 | An unknown username and a known username with a wrong password both give null |
| `UserController.UserTable.One` | api/src/controllers/user.controller.js:12-16 | Returns the row stored under the key, or null when there is none, without changing the table; a returned row has that key as its username |
| `UserController.UserTable.All` | api/src/controllers/user.controller.js:5-9 | Returns exactly the table's rows, without changing the table |
| `UserController.CreateKeepsKeys` | api/src/controllers/user.controller.js:44-51 | After registration every row is still stored under its own username |
| `UserController.CreateOnlyAdds` | api/src/controllers/user.controller.js:44-51 | Registration changes no existing row |
| `UserController.RawPasswordNotStored` | api/src/controllers/user.controller.js:38-51 | After a successful registration, the stored digest differs from the raw password when the hash never returns its input; the row has no password column |
| `UserController.OnlyDigestStored` | api/src/controllers/user.controller.js:38-51 | Two requests that differ only in their non-empty passwords, with equal digests, have the same response and the same new table: the raw password reaches the table and the response only through `hash` |
| `UserController.RegisteredUserCanLogIn` | api/src/controllers/user.controller.js:38-51 | If `verify(hash(p), p)` always holds, logging in right after a successful registration, with the same username and password, returns the created user |

## Left out

- The two `useEffect` fetches, which are network I/O: their completions are the events `ProductFetched` and `ReviewsFetched`, which can arrive in any order at any time. A failed product fetch changes nothing, so it has no event. The race between the fetches and a late update after unmounting are not modelled.
- The product id route parameter is a constant of the page; navigation to another product, and the refetch it triggers, are not modelled.
- The `console.log` of the submitted draft is the value `HandleReviewSubmit` returns; other console output is left out.
- JSX layout, CSS, the star widget's own rendering, "Add to Cart", and `useNavigate`.
- Product and review contents are not interpreted; only whether a product is loaded and whether the review list is empty matter.
- The internals of Argon2id and its random salt: a salted call is one `hash` function given to `Create`, and `Sound` and `NoFixedPoint` are stated as hypotheses.
- Sequelize behaviour beyond a map keyed by username: other columns, timestamps and the order of rows returned by `findAll` (`All` returns a set).
- Express's `res` object beyond a status and a body: `login`, `one` and `all` send status 200 by default, and the model returns only their bodies.
- Request fields are strings or absent; other JavaScript falsy values (`null`, `0`, `false`) in a registration body are not modelled, nor non-string values.
- The lookups of `login` (line 20), `one` (line 13) and `all` (line 6) are awaited outside any try/catch. If the database throws there, the handler's promise is rejected and the request gets no response at all, neither null nor 500. The model gives these lookups no failure.
- A login request with no password makes `verify` throw, and the request then gets no response; this is not modelled (`Login` takes the username and password as strings).
- `UserController.UserTable.Create`: the `console.log` of the hash length and the `console.error` of the exception are not modelled.

## Findings

| source | as written | input that shows it | evidently intended | confidence | as-written member | corrected member |
|---|---|---|---|---|---|---|
| frontend/src/pages/IndividualProductPage.js:69-72 | Submit clears the draft content but does not reset `remainingChars`, and the form stays open | Product loads, log in, "Write a Review", type "abc", submit: the form shows an empty textarea with "97 characters remaining" | Reset the counter to 100 as cancel does (line 24), so that the counter always equals 100 minus the draft's UTF-16 length | medium, not executed | `IndividualProductPage.SubmitLeavesStaleCounter` | `IndividualProductPage.CorrectedRunKeepsCounter` |

The corrected submit is `Submit(Corrected, _)`. The invariant theorem about the counter uses it. The class `ProductPage` and the handler lemmas follow the code as written, so they can be compared with the source line by line.
