# NavigateU onboarding, profile and location services — a Dafny model

NavigateU is a campus navigation app. This project models its onboarding and
its data services:

- The registration screens for students and staff and the visitor screen.
  Each screen is a value. Each input handler is a function from one screen
  state to the next. The digit sanitiser, `trim` and the "create account"
  validity rules are written out character by character. Lengths are counted
  as JavaScript's `.length` counts them, in UTF-16 code units.
- The root layout's onboarding flow: splash, loading, role selection, the
  registration screens and main. It includes the `authChecked` value that the
  splash's completion callback captured when the splash mounted. It is a pure
  `Step` function. A `RootLayout`
  class holds the same state in fields, and each of its handler methods is
  proved against `Step`.
- The Firestore profile service. The `users` collection is a map from uid to
  document. A `UserStore` class owns that map and the saved places, and its
  methods are proved against pure functions: create or merge on save, and
  friend add and remove. The friend-profile query is two methods outside the
  class. One splits the ids into chunks of at most 30. The other gathers the
  matching documents from a collection it is given as a parameter.
- The Realtime Database location service: writes and removals of a user's
  live location, and the accumulator that `watchFriendsLocations` keeps.
- The building-review service: its per-building query, and the average and
  count computed over exact reals.
- The authentication context: the `user`, `profile` and `isLoading` it holds,
  the auth listener, and `refreshProfile`.

Each asynchronous service call is one atomic step on the modelled store.
Outcomes the program cannot control are parameters:

- whether `signUp` or a write throws, and the uid `signUp` returns;
- the id Firestore gives a new review;
- Firestore's answer to an `in` query;
- `Date.now()`.

`serverTimestamp()` is the sentinel value `ServerTimestamp`.

## Model

| member | source | states |
|---|---|---|
| TextInput.KeepDigits | components/student-registration-screen.tsx:155-157 | the regex replace keeps only digits, never lengthens, and leaves a digit string unchanged |
| TextInput.SanitizeDigits | components/student-registration-screen.tsx:155-157 | the result is all digits, at most ten long, a prefix of the input's digits, and all of them when fewer than ten |
| TextInput.KeepDigitsAppend | components/student-registration-screen.tsx:155-157 | removing non-digits distributes over concatenation, so the digits keep their order |
| TextInput.KeepDigitsCounts | components/student-registration-screen.tsx:155-157 | every digit keeps its number of occurrences and every other character disappears |
| TextInput.SanitizeFixedPoints | components/student-registration-screen.tsx:155-157 | the sanitiser leaves a value unchanged exactly when it is at most ten digits |
| TextInput.SanitizeIdempotent | components/staff-registration-screen.tsx:253-255 | sanitising twice equals sanitising once |
| TextInput.SanitizedLengthAtLeastTen | components/student-registration-screen.tsx:85 | after sanitising, "at least ten characters" and "exactly ten" coincide |
| TextInput.SanitizedFull | components/visitor-info-screen.tsx:153-159 | a sanitised field has ten characters exactly when the typed text held ten or more digits |
| TextInput.TrimStart | components/visitor-info-screen.tsx:47 | removes exactly the leading whitespace and leaves a non-whitespace first character |
| TextInput.TrimEnd | components/visitor-info-screen.tsx:47 | removes exactly the trailing whitespace and leaves a non-whitespace last character |
| TextInput.Trim | components/visitor-info-screen.tsx:47 | the trimmed text is no longer than the input and starts and ends with non-whitespace |
| TextInput.TrimOffset | components/visitor-info-screen.tsx:47 | the trimmed text is the slice of the input that starts where the leading whitespace ends |
| TextInput.TrimTrailing | components/visitor-info-screen.tsx:47 | everything after the trimmed text is whitespace |
| TextInput.TrimSlice | components/visitor-info-screen.tsx:47 | the trimmed text is a slice of the input with only whitespace around it |
| TextInput.Utf16Length | components/visitor-info-screen.tsx:47 | `.length` counts UTF-16 code units: at least one and at most two per character |
| TextInput.BmpUtf16Length | components/visitor-info-screen.tsx:47 | without characters outside the Basic Multilingual Plane, the code units are exactly the characters |
| TextInput.Utf16LengthChar | components/visitor-info-screen.tsx:47 | one character is two code units when it lies outside the Basic Multilingual Plane and one otherwise |
| TextInput.Utf16LengthAppend | components/visitor-info-screen.tsx:47 | code units add up over concatenation |
| TextInput.Utf16LengthSlice | components/visitor-info-screen.tsx:47 | a slice inside another slice has no more code units |
| TextInput.DigitsUtf16Length | components/staff-registration-screen.tsx:259 | a digit string's JavaScript length is its number of characters |
| TextInput.TrimmedLengthAtLeast | components/staff-registration-screen.tsx:76-77 | the trimmed length in code units is at least n iff two non-whitespace characters span at least n code units |
| TextInput.TrimmedEnds | components/visitor-info-screen.tsx:47 | a non-empty trimmed value is the slice from one non-whitespace character to another |
| TextInput.SpanWithinTrim | components/visitor-info-screen.tsx:47 | the span between two non-whitespace characters lies inside the trimmed value |
| TextInput.TrimIdempotent | components/visitor-info-screen.tsx:47 | trimming twice equals trimming once |
| TextInput.TrimStartAfterWhitespace | components/visitor-info-screen.tsx:47 | leading whitespace added in front is removed by the trim |
| TextInput.TrimEndBeforeWhitespace | components/visitor-info-screen.tsx:47 | trailing whitespace added behind is removed by the trim |
| TextInput.TrimStartAppend | components/visitor-info-screen.tsx:47 | how trimming the start of a concatenation depends on its first part |
| TextInput.TrimPadding | components/visitor-info-screen.tsx:47 | the same whitespace padding on both sides is removed again by the trim |
| TextInput.LowerChar | app/_layout.tsx:282 | maps A to Z onto a to z and leaves every other character as it is |
| TextInput.ToLower | app/_layout.tsx:282 | keeps the length and lower-cases each character in place |
| Roles.RoleName | app/_layout.tsx:178 | every role is stored as a non-empty name |
| Roles.RoleNameInjective | components/role-selection-screen.tsx:12 | distinct roles are stored under distinct names |
| StudentRegistration.ChangeRegNumber | components/student-registration-screen.tsx:155-157 | the registration number becomes the first ten digits of the typed text (SanitizeDigits), and nothing else changes |
| StudentRegistration.ChangePhone | components/student-registration-screen.tsx:309-311 | the phone becomes the first ten digits of the typed text (SanitizeDigits), and nothing else changes |
| StudentRegistration.ToggleYearPicker | components/student-registration-screen.tsx:173-176 | the year picker flips, the stream picker closes, and the form and the password visibility are unchanged |
| StudentRegistration.ToggleStreamPicker | components/student-registration-screen.tsx:235-237 | the stream picker flips, the year picker closes, and the form and the password visibility are unchanged |
| StudentRegistration.ChooseYear | components/student-registration-screen.tsx:207-210 | a listed year is stored (so it is non-empty), the year picker closes, and every other field and the password visibility are unchanged |
| StudentRegistration.ChooseStream | components/student-registration-screen.tsx:271-274 | a listed stream is stored (so it is non-empty), the stream picker closes, and every other field and the password visibility are unchanged |
| StudentRegistration.Submit | components/student-registration-screen.tsx:77-87 | data is submitted iff the six validity conditions hold, with lengths in UTF-16 code units, and it is the form as entered |
| StudentRegistration.ReachableWellFormed | components/student-registration-screen.tsx:155-157 | any sequence of user actions keeps both numeric fields sanitised and at most one picker open |
| StudentRegistration.SubmittedDigits | components/student-registration-screen.tsx:81-87 | data submitted from a reachable screen has a ten-digit registration number and a ten-digit phone |
| StudentRegistration.ValidWithoutEmailCheckmark | components/student-registration-screen.tsx:341 | a valid form can show no email checkmark, because validity asks only for '@' |
| StudentRegistration.EmojiPasswordLongEnough | components/student-registration-screen.tsx:87 | a password of three emoji is six code units long and satisfies the six-character rule |
| StaffRegistration.ChangePhone | components/staff-registration-screen.tsx:253-255 | the phone becomes the first ten digits of the typed text (SanitizeDigits), and nothing else changes |
| StaffRegistration.ToggleDeptPicker | components/staff-registration-screen.tsx:179 | the department picker flips, and the form and the password visibility are unchanged |
| StaffRegistration.ChooseDepartment | components/staff-registration-screen.tsx:215-218 | a listed department is stored and the picker closes |
| StaffRegistration.Submit | components/staff-registration-screen.tsx:329-339 | data is submitted iff the form is valid, with lengths in UTF-16 code units, and it is the form as entered |
| StaffRegistration.ValidityIsCheckmarks | components/staff-registration-screen.tsx:75-80 | validity is the name, id and phone checkmarks plus a department and a password of six or more characters |
| StaffRegistration.EmailIrrelevant | components/staff-registration-screen.tsx:265-290 | the optional email never affects validity |
| StaffRegistration.ValidityByCharacters | components/staff-registration-screen.tsx:75-80 | validity in terms of the raw name and id: non-whitespace characters spanning two and three code units |
| StaffRegistration.BlankNameInvalid | components/staff-registration-screen.tsx:76 | a name made only of whitespace never enables submit |
| StaffRegistration.PhoneCheckmarkAfterTyping | components/staff-registration-screen.tsx:253-259 | after typing, the phone checkmark shows iff the typed text held ten or more digits |
| VisitorInfo.ChangePhone | components/visitor-info-screen.tsx:153-159 | the phone becomes the first ten digits of the typed text (SanitizeDigits), and its checkmark shows iff the text held ten or more digits |
| VisitorInfo.Continue | components/visitor-info-screen.tsx:166-172 | continuing is possible iff the trimmed name has two or more UTF-16 code units, and it passes the data as entered |
| VisitorInfo.PhoneIrrelevant | components/visitor-info-screen.tsx:47 | the optional phone never affects validity |
| VisitorInfo.ValidityByCharacters | components/visitor-info-screen.tsx:47 | validity holds iff two non-whitespace characters of the name span at least two code units |
| VisitorInfo.PaddingIrrelevant | components/visitor-info-screen.tsx:47 | whitespace padding around the name never changes validity |
| VisitorInfo.EmojiNameValid | components/visitor-info-screen.tsx:47 | a name of one emoji is two code units long and enables continue |
| Firestore.SavedProfiles | services/firestore.ts:62-81 | on a new uid: the data plus uid, timestamps, shareLocation false and no friends; on an existing one: the data merged over the old fields with updatedAt refreshed; other users untouched |
| Firestore.MergeKeepsFriends | services/firestore.ts:69-70 | saving onto an existing profile keeps its friends and sharing flag unless the data supplies them |
| Firestore.CreateResetsFriends | services/firestore.ts:71-79 | a created profile starts with no friends, whatever the data says |
| Firestore.FriendIds | services/firestore.ts:133 | a profile without a friend list reads as the empty list |
| Firestore.WithFriend | services/firestore.ts:133-136 | the friend is present afterwards, the old list is kept as a prefix, and no duplicate appears |
| Firestore.WithoutFriend | services/firestore.ts:149 | the friend is gone, every other id stays present or absent as before, and no duplicate appears |
| Firestore.WithoutFriendAppend | services/firestore.ts:149 | the filter keeps the order of the remaining ids |
| Firestore.WithoutFriendCounts | services/firestore.ts:149 | every occurrence of the friend goes, and every other id keeps its count |
| Firestore.AddThenRemove | services/firestore.ts:127-154 | removing a friend just added gives the same list as removing it alone |
| Firestore.FriendAdded | services/firestore.ts:127-140 | no change without a profile or when already a friend; otherwise the document's fields are its old fields plus friendIds and updatedAt, friendIds is the old list with the friend appended, updatedAt is a fresh server timestamp, and every other field and user is kept |
| Firestore.AddFriendIdempotent | services/firestore.ts:134 | a second addFriend of the same friend changes nothing |
| Firestore.FriendRemoved | services/firestore.ts:143-154 | no change without a profile; otherwise the document's fields are its old fields plus friendIds and updatedAt, friendIds is the old list without the friend (written even when empty), updatedAt is a fresh server timestamp, and every other field and user is kept |
| Firestore.RemoveFriendRemoves | services/firestore.ts:149-152 | after removeFriend the friend is not among the friends |
| Firestore.ChunksSizes | services/firestore.ts:113-117 | the chunks hold 1 to 30 ids each, all but the last exactly 30, and there are ceil(n/30) of them |
| Firestore.ChunksJoin | services/firestore.ts:113-117 | joined in order, the chunks give back the ids |
| Firestore.ChunksPartition | services/firestore.ts:113-117 | the chunks hold 1 to 30 ids each, all but the last exactly 30; there are ceil(n/30) of them, and joined in order they give back the ids |
| Firestore.ChunkIds | services/firestore.ts:114-117 | the chunking loop produces exactly the chunks the specification function defines |
| Firestore.GetFriendProfiles | services/firestore.ts:108-124 | an empty list issues no query; otherwise one query per chunk, covering the ids in order, and the profiles are the answers concatenated in chunk order |
| Firestore.UserStore.constructor | services/firestore.ts:20-53 | the store starts with no users and no saved places |
| Firestore.ProfileOf | services/firestore.ts:84-87 | the lookup finds a document iff one is stored for the uid, and then it is that document |
| Firestore.UserStore.GetUserProfile | services/firestore.ts:84-87 | returns the document iff one exists for the uid, otherwise null, reading the store's own collection |
| Firestore.UserStore.SaveUserProfile | services/firestore.ts:62-81 | the users become SavedProfiles of the old users, the places are unchanged, and the profile exists afterwards |
| Firestore.UserStore.DeleteUserProfile | services/firestore.ts:90-92 | the profile is gone and nothing else changes |
| Firestore.UserStore.AddFriend | services/firestore.ts:127-140 | the users become FriendAdded of the old users, and the places are unchanged |
| Firestore.UserStore.RemoveFriend | services/firestore.ts:143-154 | the users become FriendRemoved of the old users, and the places are unchanged |
| Firestore.UserStore.GetUserSavedPlaces | services/firestore.ts:178-181 | exactly the places stored under that user |
| Firestore.UserStore.SavePlaceForUser | services/firestore.ts:168-176 | the place replaces whatever was stored under its id, stamped with the server time, and is listed afterwards |
| Firestore.UserStore.DeleteSavedPlace | services/firestore.ts:183-188 | the place with that id is removed and no longer listed |
| Onboarding.ScreenFor | app/_layout.tsx:125-141 | each role leads to its own registration or visitor screen, never to main, splash, loading or role selection |
| Onboarding.RoleOf | app/_layout.tsx:125-141 | a screen yields a role exactly when that role's dispatch shows it, and then yields that role |
| Onboarding.ScreenForInjective | app/_layout.tsx:125-141 | different roles lead to different screens |
| Onboarding.Step | app/_layout.tsx:53-313 | the effect of each handler on the screen, authChecked, isRegistering, the role and the splash's captured authChecked |
| Onboarding.StepConsistent | app/_layout.tsx:125-141 | a deliverable event keeps a registration or visitor screen matched to the chosen role |
| Onboarding.RunConsistent | app/_layout.tsx:125-141 | every run of deliverable events keeps that consistency |
| Onboarding.RunKeepsAuthChecked | app/_layout.tsx:59 | once the auth check is done it stays done |
| Onboarding.SignedOutReachesRoleSelection | app/_layout.tsx:84-105 | a signed-out user reaches role selection in every order; an auth answer after the splash mounted passes through the spinner first |
| Onboarding.SplashAfterSignInLeavesMain | app/_layout.tsx:84-105 | a signed-in user sent to main is moved to the spinner, then to role selection, if the splash callback runs later |
| Onboarding.StudentDisplayName | app/_layout.tsx:175 | the display name is "Student-" followed by the registration number |
| Onboarding.StaffSignUpEmail | app/_layout.tsx:281-282 | a non-empty email is used as is; otherwise the lower-cased staff id followed by "@navigateu.app" |
| Onboarding.StudentNamesAgree | app/_layout.tsx:172-180 | the student account and profile carry the same display name and email |
| Onboarding.StaffEmailsAgree | app/_layout.tsx:281-290 | the staff account and profile carry the same email, and the department is stored as section |
| Onboarding.StaffFallbackEmail | app/_layout.tsx:281-282 | with no email, the staff member still signs up with an address of the app's domain |
| Onboarding.RootLayout.constructor | app/_layout.tsx:42-45 | starts on splash, auth unchecked, not registering, no role |
| Onboarding.RootLayout.OnAuthChange | app/_layout.tsx:53-62 | the state becomes Step of the old state on an auth event |
| Onboarding.RootLayout.OnSplashMount | components/splash-screen.tsx:32-118 | the state becomes Step of the old state when the splash mounts, capturing authChecked |
| Onboarding.RootLayout.OnSplashFinish | app/_layout.tsx:84-94 | the state becomes Step of the old state on splash completion, reading the captured authChecked |
| Onboarding.RootLayout.Render | app/_layout.tsx:101-105 | the state becomes Step of the old state on a loading render |
| Onboarding.RootLayout.OnRoleSelect | app/_layout.tsx:125-141 | the state becomes Step of the old state on a role choice |
| Onboarding.RootLayout.OnBack | app/_layout.tsx:196 | the state becomes Step of the old state on back |
| Onboarding.RootLayout.OnVisitorContinue | app/_layout.tsx:313 | the state becomes Step of the old state on visitor continue |
| Onboarding.RootLayout.Register | app/_layout.tsx:169-195 | the request is sent; the profile is saved only when sign-up and the write succeed; main is shown only then; isRegistering ends false |
| Onboarding.RootLayout.SubmitStudent | app/_layout.tsx:169-195 | signs up with "Student-" plus the registration number, saves the student profile on success, and settles the registration |
| Onboarding.RootLayout.SubmitFaculty | app/_layout.tsx:224-249 | signs up with the full name, saves the faculty profile on success, and settles the registration |
| Onboarding.RootLayout.SubmitStaff | app/_layout.tsx:278-301 | signs up with the derived email, saves the staff profile on success, and settles the registration |
| Realtime.UserPath | services/realtime.ts:40 | the path is "locations/users/" followed by the uid |
| Realtime.Stamped | services/realtime.ts:40-43 | the location fields are kept and the timestamp is the current time |
| Realtime.Applied | services/realtime.ts:72-76 | a location is stored under the uid, a null deletes it, and every other entry is unchanged |
| Realtime.ReplaySnoc | services/realtime.ts:71-78 | replaying one more callback applies it to the accumulated record |
| Realtime.ReplayLastWins | services/realtime.ts:71-78 | after any callbacks, each uid's entry is decided by the last callback about it |
| Realtime.ReplayKeys | services/realtime.ts:71-78 | only uids some callback was about can appear in the record |
| Realtime.ListenAll | services/realtime.ts:70-80 | one unsubscribe handle per friend, on that friend's path, in input order |
| Realtime.LocationDb.constructor | services/realtime.ts:15-16 | the user-location subtree starts empty |
| Realtime.LocationDb.UpdateMyLocation | services/realtime.ts:36-44 | the user's entry is replaced by the stamped location, and every other entry is kept |
| Realtime.LocationDb.RemoveMyLocation | services/realtime.ts:47-49 | the user's entry is removed, and every other entry is kept |
| Realtime.LocationDb.Snapshot | services/realtime.ts:57-58 | a listener receives the stored location, or null when there is none |
| Realtime.UpdateThenRemove | services/realtime.ts:36-49 | updating then removing a location leaves no entry and every other entry as it was |
| Realtime.FriendsWatch.constructor | services/realtime.ts:67-68 | the accumulator starts empty |
| Realtime.FriendsWatch.OnLocation | services/realtime.ts:71-78 | the record becomes Applied of the old record, only watched friends appear, and the callback receives a copy of it |
| Realtime.WatchFriendsLocations | services/realtime.ts:63-83 | a fresh empty accumulator and one handle per friend, in order |
| Reviews.WithId | services/reviews.ts:47 | the returned review carries the document's id, createdAt and every data field |
| Reviews.GetBuildingReviews | services/reviews.ts:38-48 | the query returns no more reviews than there are documents |
| Reviews.GetBuildingReviewsMembers | services/reviews.ts:38-48 | the query returns exactly the documents of that building, each with its id attached |
| Reviews.GetBuildingReviewsAppend | services/reviews.ts:41-47 | the query keeps the collection's order |
| Reviews.AddBuildingReview | services/reviews.ts:27-35 | the fresh id is returned, and the document under it holds the review; the older documents follow unchanged |
| Reviews.DeleteReview | services/reviews.ts:51-53 | the delete never adds documents |
| Reviews.DeleteReviewMembers | services/reviews.ts:51-53 | the document with that id is gone, every other document stays, none is new, and with no such document the collection is unchanged |
| Reviews.DeleteReviewAppend | services/reviews.ts:51-53 | the delete keeps the order of the remaining documents |
| Reviews.RatingSumCons | services/reviews.ts:61 | the left-fold sum of a review followed by others is its rating plus their sum |
| Reviews.RatingSumBounds | services/reviews.ts:19 | with ratings from 1 to 5, the sum lies between the count and five times the count |
| Reviews.Summarize | services/reviews.ts:59-62 | no reviews give average 0 and count 0; otherwise the count is the number of reviews and average times count is the sum |
| Reviews.GetBuildingAverageRating | services/reviews.ts:56-63 | the count is the number of that building's reviews, the average is 0 without reviews, and average times count is their rating sum |
| Reviews.AverageInRange | services/reviews.ts:19 | with ratings from 1 to 5, a non-empty average lies between 1 and 5 |
| Reviews.AddUpdatesSummary | services/reviews.ts:27-62 | adding a review raises the building's count by one and its sum by the rating, and the review comes first |
| Reviews.AddOtherBuilding | services/reviews.ts:27-62 | a review of another building leaves this building's average and count unchanged |
| AuthContext.AfterAuthEvent | contexts/auth-context.tsx:31-44 | the user is stored, the profile is the fetched one only with a user and a successful fetch, and loading ends |
| AuthContext.AfterRefresh | contexts/auth-context.tsx:48-53 | nothing happens without a user; a fetched profile replaces the old one; a thrown fetch rejects and changes nothing |
| AuthContext.RefreshCoherent | contexts/auth-context.tsx:48-53 | a refresh never gives a profile without a user |
| AuthContext.RunCoherent | contexts/auth-context.tsx:26-53 | any sequence of auth events and refreshes keeps a profile only beside a user and neither while loading |
| AuthContext.LoadingUntilAuth | contexts/auth-context.tsx:28-43 | loading persists exactly until the first auth event |
| AuthContext.RunFromInitial | contexts/auth-context.tsx:26-53 | from the initial state every reachable state is coherent, and loading iff no auth event has fired |
| AuthContext.RefreshAfterRegistration | contexts/auth-context.tsx:48-53 | for a uid with no stored document, the profile read at sign-in is null, and a refresh after the save reads back the saved data with the creation fields |
| AuthContext.AuthSession.constructor | contexts/auth-context.tsx:26-28 | starts with no user, no profile, loading |
| AuthContext.AuthSession.OnAuthChange | contexts/auth-context.tsx:30-44 | the state becomes AfterAuthEvent with the profile read from the store, so a profile is always the signed-in user's stored document |
| AuthContext.AuthSession.RefreshProfile | contexts/auth-context.tsx:48-53 | the state becomes AfterRefresh with the profile read from the store |

## Left out

- Font loading: the spinner shown while icon fonts load (app/_layout.tsx:64-77) only delays the splash's mount, which is the event `SplashMounted`.
- Alerts, the registration overlay and all rendering are not modelled, only the state they read.
- Concurrency: each asynchronous handler or service call is one atomic step. Interleavings of awaits are not modelled. This includes a listener firing in the middle of a registration, and a refresh racing an auth event.
- Onboarding.RootLayout.OnSplashFinish: whether the animation calls its completion callback after the splash has unmounted depends on the animation library. The model lets the callback come at any time after the mount.
- Onboarding.Enabled: which callbacks the UI can deliver on which screen is an assumption on the environment, stated as a predicate.
- The faculty registration screen is not part of this model. Onboarding.FacultyFormData only names the fields its handler reads.
- Onboarding.RootLayout.Register: a profile write that fails leaves the store unchanged. A partial write, and the account that `signUp` already created, are not modelled.
- TextInput.ToLower, TextInput.LowerChar: only A to Z are lower-cased; the full Unicode mapping of `toLowerCase` is not modelled.
- Firestore.FriendIds: a `friendIds` field that is not an array reads as the empty list. JavaScript would use any truthy value there.
- Firestore.GetFriendProfiles: what Firestore returns for an `in` query, and in which order, is the `answer` parameter.
- `searchUsersByEmail` is not modelled. It is a string range query whose meaning rests on Firestore's index ordering and the U+F8FF upper bound.
- Firestore.UserStore.GetUserSavedPlaces: returns a set. The order of the documents is Firestore's and is not modelled.
- Firestore.SavedPlace: `coord` is modelled as the two reals `lat` and `lng`.
- The shuttle-tracking functions of services/realtime.ts (lines 88-128) are not part of this model.
- Realtime.LocationDb.Snapshot: `watchFriendLocation` is modelled as the value its listener receives. Listener registration and delivery belong to the database client.
- Realtime.Stamped: `Date.now()` is the parameter `now`.
- Realtime.LiveLocation, Reviews.ReviewInput: numbers are exact reals and integers; floating-point rounding is not modelled.
- Reviews.GetBuildingReviews: the `orderBy("createdAt", "desc")` ordering is taken as the order of the collection sequence. The newest review comes first, and Reviews.AddBuildingReview puts the new one in front.
- Reviews.AddBuildingReview: Firestore's choice of a fresh document id is the parameter `newId`, required to be unused.
- Reviews.AverageInRange: the 1 to 5 range of ratings is documented but never enforced by the service, so it is a precondition of the lemma.
- AuthContext.AuthSession.OnAuthChange: a failing profile read is the `fetchFails` flag. The reason for the failure is not modelled.
- Unsubscribing listeners: the handles are modelled, and detaching them is not.
