# ShopSense-AI storefront core, in Dafny

This project models the client-side logic of the ShopSense-AI storefront:

- **Product search page.**
  - `fetchProducts` picks the candidate list. It is the mock catalogue for a blank query or a failed request. Otherwise it is the normalised items of the search reply.
  - `applyFilters` filters the candidates by category, store, price range and minimum rating, then orders them by the chosen sort key with a stable sort. The sort works in place on an array.
  - The page also has the "Clear Filters" button and its own wishlist toggle.
- **`useWishlist` hook.** It deletes or posts the product depending on membership, and reports an outcome object.
- **Shared validators.** These are email, password and phone.
- **Forms.** The Profile page, with its profile and password forms; Sign Up; Sign In; the Reset Password page; and the Forgot Password modal. Each form keeps an error map or an error string. Its handlers update the form, the errors and the loading flag.
- **Authentication context.** It holds the current user record and the stored token. Login, signup, Google login, logout, profile update and profile fetch act on it.

JavaScript behaviour is written out explicitly:

- **Operators.**
  - Truthiness is modelled for `||`; `??` replaces only a missing value.
  - Object spread is map union.
  - `String.prototype.trim` uses the ECMAScript whitespace set.
  - `localStorage.setItem` converts the token to a string: a missing token is stored as `"undefined"` and a null one as `"null"`.
  - `Array.prototype.sort` is stable, so the sort is modelled as a stable insertion sort.
- **The two regular expressions.**
  - `/\S+@\S+\.\S+/` is unanchored. It is given a declarative definition and a one-pass automaton proved equivalent to it.
  - `/^\+?[\d\s-]{10,}$/` is given a direct definition.
- **Requests.** Every HTTP request is a parameter: the method receives the reply, or whether the request succeeded. The search reply body is a small datatype. It distinguishes a falsy body, a primitive, an array whose items may be null, and an object with a `products` field. This is exactly what `response.data?.products || response.data || []` and the later `.map` react to.
- **Random ids.** `Math.random().toString()`, the id given to an item without one, becomes a function parameter `freshId` indexed by the item's position.

Modules:

- `Wrappers`, `Text` and `Validation` hold options, trimming and the validators.
- `Catalog`, `ProductSort`, `ProductFilter`, `ProductSearch` and `Wishlist` hold the product side.
- `Auth` is the context.
- `FormErrors`, `Profile`, `SignUp`, `SignIn`, `ResetPassword` and `ForgotPassword` are the forms.

Stateful components are classes whose fields are the component's state variables. Their methods are the event handlers. Each handler states the whole new state.

## Model

| member | source | states |
|---|---|---|
| Text.TrimStart | src/pages/ProductSearch.tsx:54 | drops exactly the leading whitespace: the result is a suffix, what was dropped is all whitespace, and the result does not start with whitespace |
| Text.TrimEnd | src/pages/ProductSearch.tsx:54 | drops exactly the trailing whitespace: the result is a prefix, the rest is all whitespace, and the result does not end with whitespace |
| Text.Trim | src/pages/ProductSearch.tsx:54 | the trimmed string is empty or starts and ends with non-whitespace |
| Text.TrimEmptyIffAllWs | src/pages/Profile.tsx:52-53 | `s.trim()` is empty exactly when every character of `s` is whitespace |
| Text.TrimIsSlice | src/pages/SignUp.tsx:29 | `s.trim()` is a contiguous slice of `s` with only whitespace outside it |
| Text.BlankIsTrimEmpty | project/src/pages/SignIn.tsx:23 | the blank test used by the forms (`!s.trim()`) is exactly "trim gives the empty string" |
| Validation.RunMeans | src/utils/validation.ts:2 | the one-pass scanner's final state records whether the email pattern occurs in the input |
| Validation.ValidateEmail | src/utils/validation.ts:1-3 | accepts exactly the strings in which a non-whitespace run, `@`, a non-whitespace run, `.` and a non-whitespace run occur |
| Validation.EmailUnanchored | src/utils/validation.ts:2 | the pattern is unanchored: any text around an accepted email is accepted too |
| Validation.BlankIsNoEmail | src/utils/validation.ts:2 | a blank string is never a valid email, so the "required" branch of the forms implies the "invalid" one |
| Validation.ValidatePassword | src/utils/validation.ts:5-13 | valid exactly when at least 8 characters; the error is present iff invalid, "Password is required" for the empty string, and the length message otherwise |
| Validation.ValidatePhone | src/utils/validation.ts:15-18 | the empty phone passes; otherwise an optional `+` and then ten or more digits, whitespace or hyphens |
| Validation.PhoneRejectsLetters | src/utils/validation.ts:17 | no phone number containing a letter is accepted |
| Text.StrOr | src/pages/ProductSearch.tsx:62-64 | `v \|\| d` on an optional string: the result is one of the two operands, the given value is used exactly when it is truthy, and a non-empty default always gives a non-empty result |
| Text.StrOrIdempotent | src/pages/ProductSearch.tsx:62-64 | defaulting an already defaulted value again changes nothing |
| Text.StrOrChain | src/pages/ProductSearch.tsx:70 | `a \|\| b \|\| d` takes the first truthy operand, else the default |
| Catalog.NumOr0 | src/pages/ProductSearch.tsx:65-67 | `v \|\| 0` on a number: the result is 0 or the given value, and it is non-zero exactly when the given value is truthy |
| Catalog.Normalize | src/pages/ProductSearch.tsx:59-72 | each field of the normalised product follows its default rule: id or the fresh id, name or title, brand "Akira", category "Other", store "Usman Store", price, rating and review count or 0, original price or null, description "", image URL or image or the placeholder, tags or [], in stock unless explicitly false; brand, category, store and image are never empty |
| Catalog.NormalizeFixesCanonical | src/pages/ProductSearch.tsx:59-72 | normalising a well-formed product read back as a raw item gives the same product |
| Catalog.NormalizeIsCanonical | src/pages/ProductSearch.tsx:59-72 | normalising any item with a usable fallback id and no empty title yields a well-formed product |
| ProductSort.ParseSortBy | src/pages/ProductSearch.tsx:93-108 | the four sort cases are selected by exactly "price-low", "price-high", "rating" and "popularity"; any other value (including "relevance" and "newest" of src/data/products.ts:178-185) leaves the order alone |
| ProductSort.Comparator | src/pages/ProductSearch.tsx:94-105 | each of the four comparators is the difference of a rank (price, minus price, minus rating, minus review count), so "sorts first" means "smaller rank" |
| ProductSort.ComparatorConsistent | src/pages/ProductSearch.tsx:94-105 | every comparator is consistent as `Array.prototype.sort` requires: zero on equal arguments, antisymmetric, and transitive |
| ProductSort.SortSpec | src/pages/ProductSearch.tsx:95 | the reference stable sort keeps the length; its ordering, permutation and stability facts are the lemmas below |
| ProductSort.InsertPerm | src/pages/ProductSearch.tsx:95 | inserting one product into a list adds exactly that product to its multiset |
| ProductSort.SortSpecPerm | src/pages/ProductSearch.tsx:95 | the sorted list is a permutation of its input |
| ProductSort.InsertSorted | src/pages/ProductSearch.tsx:95 | inserting into a sorted list keeps it sorted |
| ProductSort.SortSpecSorted | src/pages/ProductSearch.tsx:95 | the sorted list is ordered by rank |
| ProductSort.SortedMeans | src/pages/ProductSearch.tsx:93-105 | in a sorted list, prices ascend for price-low, prices descend for price-high, ratings descend for rating and review counts descend for popularity |
| ProductSort.InsertStable | src/pages/ProductSearch.tsx:95 | insertion keeps the relative order of products of equal rank, with the new one last among them |
| ProductSort.SortSpecStable | src/pages/ProductSearch.tsx:95-104 | the sort is stable: for every rank value, the products of that rank keep their input order |
| ProductSort.SortSpecOfSorted | src/pages/ProductSearch.tsx:95 | an already sorted list is left unchanged |
| ProductSort.SortSpecIdempotent | src/pages/ProductSearch.tsx:95 | sorting twice is sorting once |
| ProductSort.InsertAt | src/pages/ProductSearch.tsx:95 | shifting element `i` of the array left into the sorted prefix yields the reference insert of that element, with the suffix untouched |
| ProductSort.InsertionSort | src/pages/ProductSearch.tsx:93-108 | the in-place sort leaves in the array exactly the reference sort of its old contents (hence a sorted, stable permutation) |
| ProductFilter.Matches | src/pages/ProductSearch.tsx:85-91 | the filter callback: an inverted price range admits nothing, and under "All Categories" and "All Stores" only the price range and the rating decide |
| ProductFilter.Apply | src/pages/ProductSearch.tsx:84-111 | the visible list: never longer than the input, and the same multiset as the filtered list (sorting only reorders) |
| ProductFilter.Filtered | src/pages/ProductSearch.tsx:85-91 | the filtered list is no longer than the input and every element passes all four tests |
| ProductFilter.FilteredCount | src/pages/ProductSearch.tsx:85-91 | each product occurs in the filtered list as often as in the input if it passes, and not at all otherwise |
| ProductFilter.FilteredSubseq | src/pages/ProductSearch.tsx:85-91 | filtering keeps the input order: the result is a subsequence of the input |
| ProductFilter.ApplyExact | src/pages/ProductSearch.tsx:84-111 | the visible list holds exactly the passing products with their multiplicities, whatever the sort |
| ProductFilter.ApplySorted | src/pages/ProductSearch.tsx:93-105 | under a sort key the visible list is sorted and products of equal rank keep their filtered order |
| ProductFilter.ApplyOrders | src/pages/ProductSearch.tsx:93-105 | any two positions of the visible list obey the chosen sort option's order |
| ProductFilter.ApplyUnsorted | src/pages/ProductSearch.tsx:106-107 | under any other sort value the visible list is the filtered list, in input order |
| ProductFilter.FilteredAllPass | src/pages/ProductSearch.tsx:85-91 | a list whose products all pass is kept whole |
| ProductFilter.ApplyIdempotent | src/pages/ProductSearch.tsx:84-111 | applying the same filters to the visible list again changes nothing |
| ProductFilter.FilteredMonotone | src/pages/ProductSearch.tsx:85-91 | every product narrower settings keep, wider settings keep at least as often (multiset inclusion), hence no more products |
| ProductFilter.ApplyMonotone | src/pages/ProductSearch.tsx:84-111 | narrowing the settings only removes products from the visible list (multiset inclusion), whatever the sort |
| ProductSearch.Fetched | src/pages/ProductSearch.tsx:56 | the body's truthy `products` wins, else a truthy body itself, else the empty list |
| ProductSearch.NormalizeAll | src/pages/ProductSearch.tsx:59-72 | the map succeeds iff no item is null, and then normalises item `i` in place with fresh id `i` |
| ProductSearch.Candidates | src/pages/ProductSearch.tsx:52-82 | the list `fetchProducts` stores is the mock catalogue, or, for a non-blank query answered with an array, one product per item of that array |
| ProductSearch.CandidatesFallBack | src/pages/ProductSearch.tsx:75-80 | a blank query or a failed request leaves the mock catalogue |
| ProductSearch.CandidatesFromBody | src/pages/ProductSearch.tsx:56-74 | a reply with an array gives its normalised items; no array, or a null item, makes the map throw and falls back to the mock catalogue; a falsy body gives the empty list |
| ProductSearch.CandidatesCanonical | src/pages/ProductSearch.tsx:59-72 | fetched products are well formed when fresh ids are non-empty and no title is empty |
| ProductSearch.SearchSession.constructor | src/pages/ProductSearch.tsx:20-30 | initial state: mock catalogue in both lists, query and category from the URL parameters (or "" and "All Categories"), all stores, price range 0 to 2000, rating 0, "relevance", empty wishlist |
| ProductSearch.SearchSession.Filters | src/pages/ProductSearch.tsx:85-93 | a product passes the page's settings exactly when its category and store fit the selected ones (or "All ..."), its price lies in the page's range and its rating reaches the minimum; the order is the page's `sortBy` |
| ProductSearch.SearchSession.FetchProducts | src/pages/ProductSearch.tsx:52-82 | a request is made iff the trimmed query is non-empty; the stored products are the candidates for the query and the reply |
| ProductSearch.SearchSession.ApplyFilters | src/pages/ProductSearch.tsx:84-111 | the stored visible list is the filtered, then sorted, product list |
| ProductSearch.SearchSession.ToggleWishlist | src/pages/ProductSearch.tsx:124-132 | the id is removed if present and added otherwise, no other id changes |
| ProductSearch.SearchSession.ClearFilters | src/pages/ProductSearch.tsx:400-405 | query, category, store, price range and rating return to their defaults; the sort order is kept |
| ProductSearch.ClearedFilterAdmits | src/pages/ProductSearch.tsx:400-405 | after clearing, every product priced within 0 to 2000 with a non-negative rating passes the filters |
| ProductSearch.ClearedQueryUsesMock | src/pages/ProductSearch.tsx:401 | after clearing, the query is blank, so the next fetch stores the mock catalogue |
| Wishlist.Flip | src/hooks/useWishlist.ts:13-39 | the id's membership is inverted and every other id's is kept |
| Wishlist.FlipTwice | src/hooks/useWishlist.ts:13-39 | flipping twice restores the set |
| Wishlist.Outcome | src/hooks/useWishlist.ts:13-45 | success iff the request succeeded; "removed" with its message when the id was present, "added" with its message when absent, no action and the failure message on error |
| Wishlist.WishlistHook.constructor | src/hooks/useWishlist.ts:6 | the wishlist starts empty |
| Wishlist.WishlistHook.Toggle | src/hooks/useWishlist.ts:8-46 | returns the outcome for the old set; the set is flipped on success and unchanged on failure |
| Wishlist.OutcomeReportsMembership | src/hooks/useWishlist.ts:11-22 | "removed" is reported iff the request succeeded and the id was in the set; "added" iff it succeeded and the id was not |
| Wishlist.TwoTogglesRestore | src/hooks/useWishlist.ts:11-40 | two successful toggles restore the set, and the two report opposite actions |
| Auth.Spread | src/contexts/AuthContext.tsx:66 | `{...base, ...updates}` has both key sets; keys of `updates` take its values and other keys keep the base's |
| Auth.SpreadIdempotent | src/contexts/AuthContext.tsx:66 | applying the same update twice is applying it once |
| Auth.SpreadAssociative | src/contexts/AuthContext.tsx:66 | two successive updates equal one update with their merge |
| Auth.WithDefaultId | src/contexts/AuthContext.tsx:43 | the user record always has an id: the server's if it sent one, "1" otherwise; every other server key is kept |
| Auth.StoredToken | src/contexts/AuthContext.tsx:42 | a string token is stored as it is; "undefined" is stored exactly for a missing token or the token text "undefined", and "null" exactly for a null token or the text "null" |
| Auth.StoredTokenConflates | src/contexts/AuthContext.tsx:42 | storage cannot tell a missing token from the text "undefined" or a null one from "null", while distinct string tokens stay distinct |
| Auth.AuthSession.constructor | src/contexts/AuthContext.tsx:37 | no user, so not authenticated; the token is whatever local storage already holds |
| Auth.AuthSession.IsAuthenticated | src/contexts/AuthContext.tsx:100 | in a context whose user always carries an id, authenticated means holding a user with an id |
| Auth.AuthSession.Login | src/contexts/AuthContext.tsx:39-44 | succeeds iff the reply is accepted; then the token and the user (with the default id) are stored and the session is authenticated with a user that has an id; otherwise nothing changes |
| Auth.AuthSession.GoogleLogin | src/contexts/AuthContext.tsx:51-58 | the same state change as login, including authentication |
| Auth.AuthSession.Signup | src/contexts/AuthContext.tsx:46-49 | on success the user is set with the default id, so the session is authenticated, and the token is untouched; on failure nothing changes |
| Auth.AuthSession.Logout | src/contexts/AuthContext.tsx:60-63 | token and user are dropped, so the session is no longer authenticated |
| Auth.AuthSession.UpdateProfile | src/contexts/AuthContext.tsx:65-67 | with a user, the updates are spread over it; without one nothing happens; authentication is unchanged and the user keeps its id |
| Auth.AuthSession.GetProfile | src/contexts/AuthContext.tsx:69-79 | an accepted reply replaces the user (with the default id) and authenticates; a failure changes nothing |
| Auth.LoginAuthenticates | src/contexts/AuthContext.tsx:43 | after a successful login the user's id is the server's id if it sent one, else "1" |
| FormErrors.ClearError | src/pages/Profile.tsx:140-142 | the map keeps its keys; the edited field's entry becomes "" and the others are unchanged |
| FormErrors.ClearErrorIdempotent | src/pages/Profile.tsx:140-142 | clearing a field twice is clearing it once |
| FormErrors.ClearErrorCommutes | src/pages/Profile.tsx:140-142 | editing two fields clears the same entries in either order |
| FormErrors.NoErrors | src/pages/Profile.tsx:59 | "no keys" holds exactly for the empty error map |
| FormErrors.EmailError | src/pages/SignUp.tsx:33-37 | no error iff the email is valid; "Email is required" for a blank email; the form's invalid-email message otherwise |
| Profile.ProfileForm.With | src/pages/Profile.tsx:139 | sets exactly the named profile field |
| Profile.PasswordForm.With | src/pages/Profile.tsx:147 | sets exactly the named password field |
| Profile.NameRequiredIffTrimEmpty | src/pages/Profile.tsx:52 | "Name is required" is reported exactly when `name.trim()` is empty, and surrounding whitespace never changes the verdict |
| Profile.PhoneError | src/pages/Profile.tsx:55-57 | the phone error is present iff the phone validator rejects the phone, with "Invalid phone number" |
| Profile.ProfileErrorsMeaning | src/pages/Profile.tsx:50-60 | only name, email and phone can be flagged; each exactly when its rule fails, with the page's message |
| Profile.ProfileFormValid | src/pages/Profile.tsx:50-60 | the profile form passes iff the name is not blank and the shared email and phone validators accept |
| Profile.PasswordErrorsMeaning | src/pages/Profile.tsx:63-73 | only the three password fields can be flagged; the new password exactly when the shared validator rejects it, with its messages except "New password is required" for the empty one |
| Profile.PasswordFormValid | src/pages/Profile.tsx:63-73 | the password form passes iff the current password is non-empty, the new one has at least 8 characters, and the confirmation matches |
| Profile.ProfilePatch | src/pages/Profile.tsx:94-100 | the update carries exactly the five profile keys, from the server's user or `undefined` |
| Profile.ProfileSaveEffect | src/pages/Profile.tsx:94-100 | a save overwrites the five profile fields of the user and keeps every other property |
| Profile.ProfilePage.constructor | src/pages/Profile.tsx:9-22 | empty forms, no errors, not loading |
| Profile.ProfilePage.ValidateProfileForm | src/pages/Profile.tsx:50-60 | stores the profile error map and returns whether it is empty |
| Profile.ProfilePage.ValidatePasswordForm | src/pages/Profile.tsx:63-73 | stores the password error map and returns whether it is empty |
| Profile.ProfilePage.SubmitProfile | src/pages/Profile.tsx:75-109 | invalid input stops before the request; otherwise the user's profile fields are updated from the reply when there is one, and loading ends false |
| Profile.ProfilePage.SubmitPassword | src/pages/Profile.tsx:111-135 | invalid input stops before the request; a successful change empties the password form; loading ends false |
| Profile.ProfilePage.HandleProfileChange | src/pages/Profile.tsx:137-143 | sets the field and blanks that field's error |
| Profile.ProfilePage.HandlePasswordChange | src/pages/Profile.tsx:145-151 | sets the field and blanks that field's error |
| SignUp.SignUpForm.With | src/pages/SignUp.tsx:92 | sets exactly the named field |
| SignUp.SignUpPasswordError | src/pages/SignUp.tsx:39-43 | no error iff the shared password validator accepts; "Password is required" when empty, the "...characters long" message when short |
| SignUp.SignUpErrorsMeaning | src/pages/SignUp.tsx:26-51 | only the four fields can be flagged, each exactly when its rule fails, with the page's messages |
| SignUp.SignUpFormValid | src/pages/SignUp.tsx:26-51 | the form passes iff the full name is not blank, the email is valid, the password has at least 8 characters and the confirmation matches |
| SignUp.SignUpPage.constructor | src/pages/SignUp.tsx:8-17 | empty form, no errors, not loading |
| SignUp.SignUpPage.ValidateForm | src/pages/SignUp.tsx:26-51 | stores the error map and returns whether it is empty |
| SignUp.SignUpPage.Submit | src/pages/SignUp.tsx:53-74 | invalid input stops before the request; a success sets the user, a failure replaces all errors with the general message; loading ends false |
| SignUp.SignUpPage.HandleChange | src/pages/SignUp.tsx:90-96 | sets the field and blanks that field's error |
| SignIn.SignInForm.With | project/src/pages/SignIn.tsx:71 | sets exactly the named field |
| SignIn.SignInErrorsMeaning | project/src/pages/SignIn.tsx:20-35 | only email and password can be flagged, each exactly when its rule fails, with the page's messages |
| SignIn.SignInFormValid | project/src/pages/SignIn.tsx:20-35 | the form passes iff the email is valid and the password is non-empty (no length rule) |
| SignIn.SignInPage.constructor | project/src/pages/SignIn.tsx:9-15 | empty form, no errors, not loading |
| SignIn.SignInPage.ValidateForm | project/src/pages/SignIn.tsx:20-35 | stores the error map and returns whether it is empty |
| SignIn.SignInPage.Submit | project/src/pages/SignIn.tsx:37-51 | invalid input stops before the request and leaves the session alone; an accepted login stores token and user; a rejected one replaces all errors with the general message; loading ends false |
| SignIn.SignInPage.HandleChange | project/src/pages/SignIn.tsx:69-75 | sets the field and blanks that field's error |
| ResetPassword.ResetGuard | src/pages/ResetPasswordPage.tsx:19-32 | the request is allowed iff the new password is non-empty with at least 8 characters and equals the confirmation; otherwise the first failing guard's message, in the page's order |
| ResetPassword.ResetGuardAgreesWithValidatePassword | src/pages/ResetPasswordPage.tsx:24-27 | every password the page sends is one the shared validator accepts, and the length message is the validator's |
| ResetPassword.ResetPasswordPage.constructor | src/pages/ResetPasswordPage.tsx:10-14 | empty fields, not loading, not succeeded, no error |
| ResetPassword.ResetPasswordPage.SetNewPassword | src/pages/ResetPasswordPage.tsx:110 | sets the new password |
| ResetPassword.ResetPasswordPage.SetConfirmPassword | src/pages/ResetPasswordPage.tsx:128 | sets the confirmation |
| ResetPassword.ResetPasswordPage.Submit | src/pages/ResetPasswordPage.tsx:16-35 | a request starts iff every guard passes; then loading starts and the error clears, otherwise the first guard's message is shown |
| ResetPassword.ResetPasswordPage.Settle | src/pages/ResetPasswordPage.tsx:37-54 | success needs a message in the reply; a failure shows the server's message or the fallback, so never an empty error; loading ends either way |
| ForgotPassword.ForgotPasswordModal.constructor | src/components/ForgotPasswordModal.tsx:11-14 | empty email, not loading, not succeeded, no error |
| ForgotPassword.ForgotPasswordModal.SetEmail | src/components/ForgotPasswordModal.tsx:104 | sets the email |
| ForgotPassword.ForgotPasswordModal.Submit | src/components/ForgotPasswordModal.tsx:16-30 | a request starts iff the email is valid; otherwise "Email is required" for a blank email and the invalid-address message for any other |
| ForgotPassword.ForgotPasswordModal.Settle | src/components/ForgotPasswordModal.tsx:32-43 | success shows the success view; failure shows the server's message or the fallback, so never an empty error; loading ends either way |
| ForgotPassword.ForgotPasswordModal.Close | src/components/ForgotPasswordModal.tsx:46-52 | every field returns to its initial value |
| ForgotPassword.ForgotPasswordModal.BackToLogin | src/components/ForgotPasswordModal.tsx:54-58 | clears the success view, the email and the error, and leaves loading as it was |

## Left out

- HTTP transport, tokens in request headers, URLs and environment variables: each request is replaced by its reply or by a success flag passed to the handler.
- React scheduling: effects, the dependency arrays that re-run `fetchProducts` and `applyFilters`, and batched or stale state updates are not modelled. The handlers are atomic state changes, and the caller chooses when to call them.
- The hook-order defect in src/pages/ProductSearch.tsx:33-46 is not modelled, because it belongs to the rendering framework. The early return for an unauthenticated user comes before the effects.
- The authenticated-only render gate of the search page is not modelled. `Auth.AuthSession.IsAuthenticated` states the flag it reads.
- `handleSearch` is not modelled. It only writes the query into the URL parameters (src/pages/ProductSearch.tsx:113-122).
- The sort, category, store, price and rating setters bound to the filter controls (src/pages/ProductSearch.tsx:277-356) are not modelled; the filter fields are plain state.
- The `parseInt` conversions of the price and rating setters are not modelled: the bounds are exact numbers.
- The profile-sync effect (src/pages/Profile.tsx:37-47) is not modelled.
- The mount-time `getProfile` call is not modelled. `Auth.AuthSession.GetProfile` states its effect.
- The photo upload is not modelled.
- Alerts, navigation after submit, console logging and the modal's `onClose` callback are not modelled.
- `changePassword` of the context (src/contexts/AuthContext.tsx:81-93) is not modelled: it changes no state, and only forwards the request and rethrows its error.
- `setUser`, exposed by the context, is not modelled; it is plain assignment.
- The wishlist hook's `setWishlist` is not modelled; it is plain assignment.
- Wishlist.WishlistHook.Toggle: the membership decision reads the set the callback was created with. The model reads the current set, i.e. it assumes the callback is fresh.
- Catalog.Normalize: prices, ratings and review counts are exact numbers. NaN, strings and other non-number values in the reply are not modelled.
- Catalog.Normalize: the result of `toString()` on the raw id is taken as given, an optional string.
- Catalog.Normalize: the reply's item `name` or `title` is an optional string. Other types are not modelled.
- String lengths are sequence lengths. JavaScript counts UTF-16 code units, so a string containing characters outside the Basic Multilingual Plane may have a different length there than here.
- Validation.ValidateEmail and Validation.ValidatePhone are specific definitions of the two patterns, not a general regular-expression engine.
- Price formatting, discount percentages and the product-card rendering are not modelled (display only).
- The search reply's item fields beyond those the normaliser reads are not modelled.
- The search neither fans out over several stores nor ranks by relevance: it queries one endpoint, and "relevance" leaves the order unchanged.
- ResetPassword.ResetPasswordPage.Settle: a success reply whose body makes reading `message` throw is not modelled. Such a throw would take the error path.
- ProductSearch.SearchSession.FetchProducts: the case where the `products` getter of the body throws is not modelled.
