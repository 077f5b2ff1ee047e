# Creator and brand sign-up wizard, in Dafny

This project models the onboarding core of a web front end: a multi-step
sign-up wizard and a three-screen password-reset flow. There is no back end,
so every check is local or a demonstration rule:
- the six-digit code is always `123456`;
- a fixed set of user names counts as taken;
- a few simulated delays stand in for network calls.

The wizard's state lives in one container, the sign-up context:
- the step on screen;
- the list of completed steps;
- one shared draft record of 23 fields.

A screen reads its fields from the draft when it opens. Where it differs is
when it writes them back:
- Most creator screens keep local copies while the user types. They write them
  back on "continue", after their guards pass.
- The basic-information screen (step 1) writes every keystroke straight into
  the draft.
- The business screens write each choice into the draft as it is clicked.

On "continue" a screen runs its guards and moves to another step. A guard that
fails shows a destructive notification and changes nothing.

The model follows that structure:

- `SignupData` holds the draft record. It also holds a partial record (`Patch`) for `updateSignupData` and a uniform view of fields (`Get`, `PatchGet`), so contracts can say "only these fields changed" (`OnlyChanged`).
- `SignupContext` holds the container: `setCurrentStep`, `updateSignupData`, `resetSignup`, `skipCurrentStep`, `markStepComplete`, `isStepComplete` and `skipToCompletion`.
- `SignupPage` holds the page that maps a step number to a screen, a title and a description.
- There is one module per screen:
  - creator steps `Step0Username` … `Step12Payment`;
  - business steps `Step3Industry`, `Step4Categories`, `Step5Platforms`, `Step6ContentVolume` and `Step7Budget`;
  - the reset flow: `ForgotPassword`, `ForgotPasswordRequest`, `VerifyResetOtp` and `ResetPassword`.
- There are shared helpers:
  - `Otp`, the six-box code entry and the 60-second resend countdown used by both code screens;
  - `Lists`, for `indexOf`, `splice` and the select/deselect toggles;
  - `Text`, for the JavaScript string built-ins and regular expressions the screens use;
  - `Wrappers`.

Every event handler is a pure function:
- it takes the context state, the screen's local state and the input;
- it returns `Ok(new state)` or `Err(tag)`, where the tag names the notification shown instead.

A delayed completion (`setTimeout`) is modelled as completing at once.

Two observations from the source shape the model:
- The content-images screen (step 9) finishes the sign-up on "continue", and `Step9ContentImages.Submit` resets the context to its initial state. No screen calls `skipCurrentStep` or `skipToCompletion`, and steps 10 to 12 are entered only from each other (step 10 moves to 11, step 11 to 12 or back to 10). Through the screens they are therefore unreachable from a fresh session.
- The page dispatches only the creator steps. The business screens use the same context, but no page in this source renders them. They are modelled as operations on the same state.

## Model

| member | source | states |
|---|---|---|
| SignupData.Initial | src/contexts/SignupContext.tsx:102-126 | every field of the empty draft is blank (empty text, list, `null` or `false`) except the country code, which is "+1" |
| SignupData.Merge | src/contexts/SignupContext.tsx:136-138 | merging a partial record sets each field the record mentions to the given value and leaves every other field unchanged |
| SignupData.MergeOnlyChangesMentioned | src/contexts/SignupContext.tsx:136-138 | an update changes no field outside those the partial record mentions |
| SignupData.MergeTwiceIsMergeOfThen | src/contexts/SignupContext.tsx:136-138 | two updates in a row equal one update with the combined record, where the later value wins field by field |
| SignupData.MergeNoChange | src/contexts/SignupContext.tsx:136-138 | an update with an empty record leaves the draft as it was |
| SignupData.MergeIdempotent | src/contexts/SignupContext.tsx:136-138 | repeating the same update changes nothing more |
| SignupContext.Fresh | src/contexts/SignupContext.tsx:131-133 | the provider starts on step 0 with no completed steps and the initial draft |
| SignupContext.SetCurrentStep | src/contexts/SignupContext.tsx:131 | moving to a step changes only the current step, and any number is taken |
| SignupContext.SetCurrentStepIsUnchecked | src/contexts/SignupContext.tsx:131-134 | nothing stops a step past the last one (13) or below 0 |
| SignupContext.UpdateSignupData | src/contexts/SignupContext.tsx:136-138 | the mentioned fields take the new values, no other field changes, and the step and completed list stay |
| SignupContext.ResetSignup | src/contexts/SignupContext.tsx:140-144 | a reset from any state gives exactly the provider's initial state |
| SignupContext.SkipCurrentStep | src/contexts/SignupContext.tsx:146-150 | skipping advances one step below the last step, stays put at or beyond it, and touches nothing else |
| SignupContext.SkipsStopAtLastStep | src/contexts/SignupContext.tsx:146-150 | n skips from any step in range land on min(step + n, 12) and never mark a step completed or change the draft |
| SignupContext.SkipToCompletion | src/contexts/SignupContext.tsx:165-170 | the completed list becomes exactly 0, 1, …, 12 in order, the step becomes 12, and the draft is kept |
| SignupContext.SkipToCompletionCompletesAll | src/contexts/SignupContext.tsx:161-170 | after skipping to completion a step reads as complete if and only if it lies in 0..12 |
| SignupContext.SortAscending | src/contexts/SignupContext.tsx:155 | the numeric sort gives an ascending permutation of its input |
| SignupContext.SortSorted | src/contexts/SignupContext.tsx:155 | sorting an already ascending list leaves it unchanged |
| SignupContext.MarkStepComplete | src/contexts/SignupContext.tsx:152-159 | the completed list afterwards holds exactly the old members plus the step; an already-listed step changes nothing; otherwise the list is sorted |
| SignupContext.MarkStepCompleteKeepsOrder | src/contexts/SignupContext.tsx:152-159 | on a strictly increasing list, marking a new step inserts it in place and the list stays strictly increasing |
| SignupContext.MarkStepCompleteIdempotent | src/contexts/SignupContext.tsx:152-159 | marking a step twice is the same as marking it once |
| SignupContext.MarkThenQuery | src/contexts/SignupContext.tsx:152-163 | after marking, the marked step reads as complete and every other step reads as it did before |
| SignupPage.StepOf | src/pages/Signup.tsx:79-110 | every screen belongs to a step in 0..12 |
| SignupPage.RenderStepComponent | src/pages/Signup.tsx:79-110 | a step in range shows the screen of that step; any other number shows the user-name screen |
| SignupPage.RenderStepOf | src/pages/Signup.tsx:79-110 | each screen is shown for its own step number |
| SignupPage.RenderStepInjective | src/pages/Signup.tsx:79-110 | no two steps in range show the same screen |
| SignupPage.StepInfo | src/pages/Signup.tsx:23-76 | there is a heading exactly for the steps 0..12, and each has a non-empty title and description |
| SignupPage.StepTitle | src/pages/Signup.tsx:114 | the title is non-empty exactly for steps in range, and there it is the table's title |
| SignupPage.StepDescription | src/pages/Signup.tsx:115 | a description exists exactly for steps in range, and it is non-empty |
| SignupPage.OutOfRangeStepLosesHeading | src/pages/Signup.tsx:79-115 | a step out of range shows the user-name screen under an empty title and no description |
| Lists.IndexOf | src/components/signup/Step8ContentCategories.tsx:34 | `indexOf` finds the first position holding the value, and none exactly when the value is absent |
| Lists.RemoveAt | src/components/signup/Step7SocialProfiles.tsx:81-85 | `splice(index, 1)` drops exactly that position, keeps the order of the rest, and changes nothing past the end |
| Lists.RemoveAtMultiset | src/components/signup/Step7SocialProfiles.tsx:81-85 | removing a position removes one copy of its element and nothing else |
| Lists.RemoveAtKeepsNoDuplicates | src/components/signup/Step9ContentImages.tsx:48-60 | removing an entry keeps a duplicate-free list duplicate-free |
| Lists.Toggle | src/components/signup/Step5Platforms.tsx:73-86 | an absent entry is appended, and a present entry is removed at its first position |
| Lists.ToggleKeepsNoDuplicates | src/components/signup/Step5Platforms.tsx:73-86 | toggling keeps a duplicate-free selection duplicate-free and flips the entry's membership |
| Lists.ToggleTwiceWhenAbsent | src/components/signup/Step5Platforms.tsx:73-86 | selecting then deselecting an absent entry restores the list |
| Lists.ToggleTwiceWhenPresent | src/components/signup/Step5Platforms.tsx:73-86 | deselecting then selecting a present entry keeps the same members but moves it to the end |
| Lists.ToggleCapped | src/components/signup/Step8ContentCategories.tsx:32-52 | a click is refused exactly when the entry is absent and the cap is reached; otherwise it is a plain toggle |
| Lists.ToggleCappedKeepsInvariant | src/components/signup/Step4Categories.tsx:30-50 | a capped selection stays duplicate-free and within its cap |
| Lists.ToggleCappedTwice | src/components/signup/Step4Categories.tsx:30-50 | below the cap, selecting then deselecting an absent entry restores the list |
| Text.Units | src/components/signup/Step0Username.tsx:19 | `length` counts UTF-16 code units: between one and two per character |
| Text.UnitsOfBmp | src/components/signup/Step0Username.tsx:19 | text with no character above U+FFFF is as long in code units as in characters |
| Text.BmpTail | src/components/signup/Step0Username.tsx:19 | dropping the first character of text with no character above U+FFFF leaves such text, and that character is one code unit |
| Text.DigitsAreSingleUnits | src/components/signup/Step12Payment.tsx:30 | a string of digits is as long in code units as in characters |
| Text.TakeUnits | src/components/signup/Step4Title.tsx:49 | `slice(0, n)` keeps a prefix of at most n code units; it keeps the whole text when that fits; a shorter prefix stops only where the next character would not fit |
| Text.TakeUnitsOfBmp | src/components/signup/Step4Title.tsx:49 | on text with no character above U+FFFF, cutting by code units is cutting by characters |
| Text.Take | src/components/signup/Step12Payment.tsx:92-93 | `slice` on digit text gives a prefix of at most n digits, and the whole text when it is short enough |
| Text.Last | src/components/signup/Step2VerifyOTP.tsx:27-40 | on digit text, `slice(-1)` gives the last digit, or nothing for empty text |
| Text.Digits | src/components/signup/Step12Payment.tsx:76-85 | stripping non-digits leaves only digits and never lengthens the text |
| Text.DigitsOfDigits | src/components/signup/Step12Payment.tsx:76-85 | stripping non-digits from digits changes nothing |
| Text.StripWhitespace | src/components/signup/Step12Payment.tsx:30 | removing `\s` leaves no whitespace character |
| Text.KeepAppend | src/components/signup/Step12Payment.tsx:76-85 | filtering distributes over concatenation |
| Text.ContainsIffOccurs | src/components/signup/Step3Location.tsx:31-33 | `includes` holds exactly when the needle occurs at some offset |
| Text.EverythingContainsEmpty | src/components/signup/Step3Location.tsx:31-33 | every location contains the empty search term |
| Text.TrimEmptyIffBlank | src/components/signup/Step10ContentPackages.tsx:69-73 | `trim()` is empty exactly when the text is all whitespace |
| Text.IsValidEmailMatchesPattern | src/components/signup/Step1BasicInfo.tsx:55-57 | the e-mail check accepts exactly the strings matching `^[^\s@]+@[^\s@]+\.[^\s@]+$` |
| Otp.EmptySlots | src/components/signup/Step2VerifyOTP.tsx:12 | the six boxes start empty and join to the empty code |
| Otp.EditSlot | src/components/signup/Step2VerifyOTP.tsx:27-40 | typing non-digits into a box changes nothing; otherwise the box keeps the last character typed and no other box changes |
| Otp.EditSlotKeepsValid | src/components/signup/Step2VerifyOTP.tsx:27-40 | after any edit every box holds at most one digit |
| Otp.Paste | src/components/signup/Step2VerifyOTP.tsx:49-69 | pasting fills the leading boxes with the digits among the first six pasted UTF-16 code units and leaves the other boxes as they were |
| Otp.JoinLength | src/components/signup/Step2VerifyOTP.tsx:71-72 | the joined code is at most six long, and exactly six when every box is filled |
| Otp.JoinSingletons | src/components/signup/Step2VerifyOTP.tsx:71-72 | boxes holding the characters of a code join back to that code |
| Otp.JoinOfDigits | src/components/signup/Step2VerifyOTP.tsx:71-72 | boxes holding only digits join to a string of digits |
| Otp.CompleteIffAllFilled | src/components/signup/Step2VerifyOTP.tsx:73-80 | the joined code's `length` is its number of digits, and it is six exactly when no box is empty |
| Otp.CheckCode | src/components/signup/Step2VerifyOTP.tsx:71-102 | a code is accepted exactly when it is 123456, and refused as incomplete exactly when it is not six code units long |
| Otp.DemoDigitsAccepted | src/components/signup/Step2VerifyOTP.tsx:84-86 | the boxes 1,2,3,4,5,6 are accepted |
| Otp.EmptyBoxIsIncomplete | src/components/signup/Step2VerifyOTP.tsx:73-80 | one empty box makes the code incomplete |
| Otp.Tick | src/components/signup/Step2VerifyOTP.tsx:18-25 | each second lowers the countdown by one until it reaches zero, keeping resend available exactly at zero |
| Otp.Resend | src/components/signup/Step2VerifyOTP.tsx:104-114 | resending before the countdown ends does nothing; afterwards it restarts the 60 seconds |
| Otp.TicksFromStart | src/components/signup/Step2VerifyOTP.tsx:18-25 | n seconds after the screen opens, max(60 − n, 0) seconds remain, and resend is offered exactly from 60 on |
| Otp.ResendWaitsAMinute | src/components/signup/Step2VerifyOTP.tsx:104-114 | a resend takes effect only after 60 seconds and then makes the user wait another 60 |
| Step0Username.Mount | src/components/signup/Step0Username.tsx:14-16 | the screen opens with the saved name and no availability answer |
| Step0Username.EditUsername | src/components/signup/Step0Username.tsx:91-94 | typing replaces the name and forgets the availability answer |
| Step0Username.CheckUsername | src/components/signup/Step0Username.tsx:18-59 | fewer than 3 UTF-16 code units is "too short"; characters outside `[a-zA-Z0-9_]` are invalid; otherwise the answer is "available" exactly when the name, compared without case, is not reserved |
| Step0Username.Submit | src/components/signup/Step0Username.tsx:61-78 | "continue" succeeds exactly after a positive availability answer, then saves only the name and goes to step 1 |
| Step0Username.EditRequiresRecheck | src/components/signup/Step0Username.tsx:61-78 | after any edit, "continue" is refused until the name is checked again |
| Step0Username.SavedUsernameIsValid | src/components/signup/Step0Username.tsx:18-78 | typing, checking and continuing succeeds exactly for well-formed names that are not taken, and saves that name |
| Step0Username.ReservedIgnoresCase | src/components/signup/Step0Username.tsx:40 | for every name, whether it is taken is the same as for its lower-case form |
| Step0Username.ReservedExamples | src/components/signup/Step0Username.tsx:40 | examples: "Admin" and "SUPPORT" are taken, while "admins" is not, because only whole names match |
| Step1BasicInfo.PatchFor | src/components/signup/Step1BasicInfo.tsx:131-176 | each input writes exactly its own draft field |
| Step1BasicInfo.Edit | src/components/signup/Step1BasicInfo.tsx:131-176 | typing in one input changes exactly that draft field and neither the step nor the completed list |
| Step1BasicInfo.Submit | src/components/signup/Step1BasicInfo.tsx:15-53 | a missing name, brand, e-mail or password is reported first; a successful submit only moves to step 2 |
| Step1BasicInfo.SubmitAcceptsExactly | src/components/signup/Step1BasicInfo.tsx:15-57 | the form is accepted exactly when all four fields are filled, the password has at least 8 UTF-16 code units, and the e-mail matches the pattern |
| Step1BasicInfo.SubmitReportsFirstProblem | src/components/signup/Step1BasicInfo.tsx:15-53 | a short password is reported only when all fields are filled, and an invalid e-mail only when the password is also long enough |
| Step2VerifyOtp.Mount | src/components/signup/Step2VerifyOTP.tsx:12-15 | the screen opens with six empty boxes and a fresh 60-second countdown |
| Step2VerifyOtp.Verify | src/components/signup/Step2VerifyOTP.tsx:71-102 | verification succeeds exactly for 123456 and fails as incomplete exactly for a short code; success marks the e-mail verified, changes only that field, and goes to step 3 |
| Step2VerifyOtp.Back | src/components/signup/Step2VerifyOTP.tsx:116-118 | "back" shows step 1 and changes nothing else |
| Step2VerifyOtp.FreshScreenRefuses | src/components/signup/Step2VerifyOTP.tsx:73-80 | verifying before typing anything is refused as incomplete |
| Step2VerifyOtp.DemoCodeVerifies | src/components/signup/Step2VerifyOTP.tsx:84-95 | typing 1 2 3 4 5 6 verifies the e-mail |
| Step3Location.Mount | src/components/signup/Step3Location.tsx:27-28 | the search field opens with the saved location and the list hidden |
| Step3Location.Filter | src/components/signup/Step3Location.tsx:31-33 | a suggestion is listed exactly when it contains the search term, both lowered |
| Step3Location.FilteredLocations | src/components/signup/Step3Location.tsx:11-33 | the listed suggestions are exactly the built-in ones that match |
| Step3Location.FilterAppend | src/components/signup/Step3Location.tsx:31-33 | filtering a list in two pieces is filtering each piece, in order |
| Step3Location.FilterSingle | src/components/signup/Step3Location.tsx:31-33 | one entry is kept exactly when it matches, so the filter keeps the matching entries in their original order |
| Step3Location.FilterKeepsAll | src/components/signup/Step3Location.tsx:31-33 | when every entry matches, the filter keeps the list in full and in order |
| Step3Location.EmptyTermShowsAll | src/components/signup/Step3Location.tsx:31-33 | an empty search matches all ten suggestions |
| Step3Location.SuggestionMatchesItself | src/components/signup/Step3Location.tsx:31-33 | searching for a suggestion lists it |
| Step3Location.VisibleSuggestions | src/components/signup/Step3Location.tsx:82 | the drop-down shows only when it is open and the term is non-empty, and then it shows all matching suggestions in list order |
| Step3Location.Focus | src/components/signup/Step3Location.tsx:77 | focusing the box keeps the term and opens the list, which then shows every match of a non-empty term |
| Step3Location.Type | src/components/signup/Step3Location.tsx:73-76 | typing sets the term and opens the list |
| Step3Location.Select | src/components/signup/Step3Location.tsx:35-38 | picking a suggestion puts it in the field and closes the list |
| Step3Location.Submit | src/components/signup/Step3Location.tsx:40-56 | "continue" succeeds exactly for a non-empty location, saves only that field, and goes to step 4 |
| Step3Location.Back | src/components/signup/Step3Location.tsx:58-60 | "back" shows step 2 and changes nothing else |
| Step3Location.PickedSuggestionIsSaved | src/components/signup/Step3Location.tsx:35-56 | a visible suggestion that is picked and submitted is the saved location |
| Step4Title.Mount | src/components/signup/Step4Title.tsx:13 | the field opens with the saved title |
| Step4Title.Edit | src/components/signup/Step4Title.tsx:16-49 | typing keeps a prefix of at most 60 UTF-16 code units, the whole text when it fits, and cuts only where the next character would not fit |
| Step4Title.EditIdempotent | src/components/signup/Step4Title.tsx:49 | cutting an already-cut title changes nothing |
| Step4Title.Submit | src/components/signup/Step4Title.tsx:18-34 | "continue" succeeds exactly for a non-empty title, saves only the title, and goes to step 5 |
| Step4Title.Back | src/components/signup/Step4Title.tsx:36-38 | "back" shows step 3 and changes nothing else |
| Step4Title.SavedTitleIsBounded | src/components/signup/Step4Title.tsx:18-49 | whatever is typed, a saved title is a non-empty prefix of what was typed, at most 60 code units long |
| Step5Bio.Mount | src/components/signup/Step5Bio.tsx:13 | the field opens with the saved bio |
| Step5Bio.Edit | src/components/signup/Step5Bio.tsx:16-48 | typing keeps a prefix of at most 500 UTF-16 code units, the whole text when it fits, and cuts only where the next character would not fit |
| Step5Bio.EditIdempotent | src/components/signup/Step5Bio.tsx:48 | cutting an already-cut bio changes nothing |
| Step5Bio.Submit | src/components/signup/Step5Bio.tsx:18-34 | "continue" succeeds exactly for a non-empty bio, saves only the bio, and goes to step 6 |
| Step5Bio.Back | src/components/signup/Step5Bio.tsx:36-38 | "back" shows step 4 and changes nothing else |
| Step5Bio.SavedBioIsBounded | src/components/signup/Step5Bio.tsx:18-48 | whatever is typed, a saved bio is a non-empty prefix of what was typed, at most 500 code units long |
| Step6Gender.Mount | src/components/signup/Step6Gender.tsx:20 | the choice opens with the saved gender |
| Step6Gender.Submit | src/components/signup/Step6Gender.tsx:23-39 | "continue" succeeds exactly when a gender is chosen, saves only it, and goes to step 7 |
| Step6Gender.Back | src/components/signup/Step6Gender.tsx:41-43 | "back" shows step 5 and changes nothing else |
| Step6Gender.ChosenGenderIsSaved | src/components/signup/Step6Gender.tsx:23-39 | any chosen gender is accepted and saved |
| Step6Gender.ReturnShowsSavedChoice | src/components/signup/Step6Gender.tsx:20-39 | coming back to the screen shows the gender that was saved |
| Step7SocialProfiles.Mount | src/components/signup/Step7SocialProfiles.tsx:35-43 | the screen opens with the saved profiles and a blank new-profile form |
| Step7SocialProfiles.SetPlatform | src/components/signup/Step7SocialProfiles.tsx:119 | choosing a platform changes only the form's platform |
| Step7SocialProfiles.SetFollowers | src/components/signup/Step7SocialProfiles.tsx:141 | choosing a follower range changes only the form's range |
| Step7SocialProfiles.SetUrl | src/components/signup/Step7SocialProfiles.tsx:174 | typing a URL changes only the form's URL |
| Step7SocialProfiles.AddProfile | src/components/signup/Step7SocialProfiles.tsx:45-79 | adding reports a missing URL, then an invalid URL, then a platform already listed; otherwise the form is appended and cleared |
| Step7SocialProfiles.RemoveProfile | src/components/signup/Step7SocialProfiles.tsx:81-85 | removing drops the profile at that position and keeps the others in order; an index past the end changes nothing; the form is left alone |
| Step7SocialProfiles.AddKeepsListWellFormed | src/components/signup/Step7SocialProfiles.tsx:45-79 | a list with distinct platforms and valid URLs keeps both properties after an add |
| Step7SocialProfiles.RemoveKeepsListWellFormed | src/components/signup/Step7SocialProfiles.tsx:81-85 | the same two properties survive a removal |
| Step7SocialProfiles.AddThenRemoveRestores | src/components/signup/Step7SocialProfiles.tsx:45-85 | removing a just-added profile restores the list |
| Step7SocialProfiles.Submit | src/components/signup/Step7SocialProfiles.tsx:96-99 | "continue" always saves the list, changes nothing else, and goes to step 8 |
| Step7SocialProfiles.Back | src/components/signup/Step7SocialProfiles.tsx:101-103 | "back" shows step 6 and changes nothing else |
| Step8ContentCategories.Mount | src/components/signup/Step8ContentCategories.tsx:28 | the screen opens with the saved categories |
| Step8ContentCategories.ToggleCategory | src/components/signup/Step8ContentCategories.tsx:32-52 | a click is refused exactly when a sixth category is added; otherwise it is the plain select/deselect toggle, and it never affects other categories |
| Step8ContentCategories.ToggleKeepsSelectionValid | src/components/signup/Step8ContentCategories.tsx:10-52 | the selection stays duplicate-free and at most 5 long, and the clicked category's membership flips |
| Step8ContentCategories.ToggleTwiceRestores | src/components/signup/Step8ContentCategories.tsx:32-52 | below the cap, clicking a new card twice restores the selection |
| Step8ContentCategories.Submit | src/components/signup/Step8ContentCategories.tsx:54-70 | "continue" succeeds exactly with at least one category, saves only them, and goes to step 9 |
| Step8ContentCategories.Back | src/components/signup/Step8ContentCategories.tsx:72-74 | "back" shows step 7 and changes nothing else |
| Step9ContentImages.FirstProfilePicture | src/components/signup/Step9ContentImages.tsx:17-21 | `findIndex` finds the first image flagged as profile picture, or none when no image is flagged |
| Step9ContentImages.Mount | src/components/signup/Step9ContentImages.tsx:15-21 | the screen opens with the saved images and the index of the first flagged one |
| Step9ContentImages.MountAligned | src/components/signup/Step9ContentImages.tsx:15-21 | with at most one flagged image saved, the index and the flags agree on opening |
| Step9ContentImages.AddImage | src/components/signup/Step9ContentImages.tsx:33-46 | adding is refused exactly at 10 images; otherwise one unflagged placeholder is appended |
| Step9ContentImages.RemoveImage | src/components/signup/Step9ContentImages.tsx:48-60 | removing drops that image; removing the profile picture clears the index, and a later index shifts down by one |
| Step9ContentImages.SetProfilePicture | src/components/signup/Step9ContentImages.tsx:62-73 | exactly the chosen image is flagged afterwards and the index points to it |
| Step9ContentImages.EditsKeepAligned | src/components/signup/Step9ContentImages.tsx:33-73 | add, remove and choose keep the index pointing at the one flagged image, or none when none is flagged |
| Step9ContentImages.Submit | src/components/signup/Step9ContentImages.tsx:75-111 | fewer than 3 images is refused, then a missing profile picture; success resets the whole sign-up |
| Step9ContentImages.AcceptedHasOneProfilePicture | src/components/signup/Step9ContentImages.tsx:75-111 | an accepted set has at least 3 images and exactly one profile picture |
| Step9ContentImages.Back | src/components/signup/Step9ContentImages.tsx:113-116 | "back" saves only the images and leaves the step as it is |
| Step9ContentImages.BackThenMountRestores | src/components/signup/Step9ContentImages.tsx:15-21 | reopening after "back" shows the same images and profile picture |
| Step10ContentPackages.Mount | src/components/signup/Step10ContentPackages.tsx:27-38 | the screen opens with the saved packages, or one default package when none is saved |
| Step10ContentPackages.PriceOf | src/components/signup/Step10ContentPackages.tsx:45 | an empty price field reads as 0 |
| Step10ContentPackages.ChangePackage | src/components/signup/Step10ContentPackages.tsx:41-48 | an edit changes exactly one field of exactly one package |
| Step10ContentPackages.AddPackage | src/components/signup/Step10ContentPackages.tsx:50-52 | adding appends one default package and keeps the others |
| Step10ContentPackages.RemovePackage | src/components/signup/Step10ContentPackages.tsx:54-67 | removing the only package is refused; otherwise exactly that package is dropped |
| Step10ContentPackages.PackagesNeverEmpty | src/components/signup/Step10ContentPackages.tsx:36-67 | no edit leaves the screen without a package |
| Step10ContentPackages.Submit | src/components/signup/Step10ContentPackages.tsx:69-91 | "continue" succeeds exactly when every package has a non-blank description and a positive price, saves only the packages, and goes to step 11 |
| Step10ContentPackages.SubmitAcceptsExactly | src/components/signup/Step10ContentPackages.tsx:69-91 | the same condition stated with "not all whitespace" in place of `trim()` |
| Step10ContentPackages.DefaultPackageRefused | src/components/signup/Step10ContentPackages.tsx:27-31 | the untouched default package cannot be submitted |
| Step10ContentPackages.Back | src/components/signup/Step10ContentPackages.tsx:93-96 | "back" saves only the packages and goes to step 9 |
| Step10ContentPackages.BackThenMountRestores | src/components/signup/Step10ContentPackages.tsx:36-38 | reopening after "back" shows the same packages |
| Step11PhoneVerification.Mount | src/components/signup/Step11PhoneVerification.tsx:41-45 | the screen opens with the saved number, the saved country code or "+1", the code box shown exactly when already verified, and an empty code |
| Step11PhoneVerification.SetPhoneNumber | src/components/signup/Step11PhoneVerification.tsx:182-186 | the number can be edited only while the code box is hidden |
| Step11PhoneVerification.SetCountryCode | src/components/signup/Step11PhoneVerification.tsx:159-161 | the country can be changed only while the code box is hidden |
| Step11PhoneVerification.SetOtp | src/components/signup/Step11PhoneVerification.tsx:214-216 | the code box keeps a prefix of at most six UTF-16 code units, and the whole text when it fits |
| Step11PhoneVerification.SendCode | src/components/signup/Step11PhoneVerification.tsx:49-70 | sending is refused exactly for an empty number; otherwise the code box opens |
| Step11PhoneVerification.PhonePatch | src/components/signup/Step11PhoneVerification.tsx:86-90 | the saved record names the number, the country and, when given, the verified flag |
| Step11PhoneVerification.VerifyCode | src/components/signup/Step11PhoneVerification.tsx:72-108 | a code shorter or longer than six code units is refused first; success is exactly 123456 and saves number, country and the verified flag, and nothing else |
| Step11PhoneVerification.Submit | src/components/signup/Step11PhoneVerification.tsx:110-135 | the "continue" handler as written: it sends the code while the box is hidden, asks for six code units while it is shown, and otherwise saves number and country and goes to step 12 |
| Step11PhoneVerification.WrongCodeStillContinues | src/components/signup/Step11PhoneVerification.tsx:110-135 | a wrong six-character code, which verification refuses, still lets "continue" reach step 12 with the phone unverified |
| Step11PhoneVerification.VerifiedUserMustRetypeCode | src/components/signup/Step11PhoneVerification.tsx:41-45 | reopening the screen after verifying refuses "continue" until a code is typed again |
| Step11PhoneVerification.SubmitVerified | src/components/signup/Step11PhoneVerification.tsx:110-135 | the corrected handler moves on exactly when the phone is verified |
| Step11PhoneVerification.IntendedFlow | src/components/signup/Step11PhoneVerification.tsx:49-135 | send, then verify 123456, then "continue" is the corrected handler's only way to step 12 |
| Step11PhoneVerification.Back | src/components/signup/Step11PhoneVerification.tsx:137-143 | "back" saves only number and country and goes to step 10 |
| Step12Payment.Mount | src/components/signup/Step12Payment.tsx:18-23 | the form opens with the saved card or with empty fields |
| Step12Payment.GroupLength | src/components/signup/Step12Payment.tsx:81 | grouping by four adds one space between each pair of groups |
| Step12Payment.KeepGroup | src/components/signup/Step12Payment.tsx:81 | dropping the spaces from the grouped digits gives the digits back |
| Step12Payment.GroupPrefix | src/components/signup/Step12Payment.tsx:81-82 | the first m groups of the text are the grouping of its first 4m digits |
| Step12Payment.FormatCardNumber | src/components/signup/Step12Payment.tsx:76-85 | the formatted card number has at most 19 characters |
| Step12Payment.FormatCardNumberGroupsFirst16 | src/components/signup/Step12Payment.tsx:76-85 | the formatted number is the first 16 digits typed, in groups of four |
| Step12Payment.FormatCardNumberIdempotent | src/components/signup/Step12Payment.tsx:76-103 | formatting an already formatted number changes nothing |
| Step12Payment.FormattedCardLength | src/components/signup/Step12Payment.tsx:29-85 | without spaces the formatted number is the first 16 digits, so it passes the length check exactly when 16 digits were typed |
| Step12Payment.FormatExpiry | src/components/signup/Step12Payment.tsx:87-97 | the formatted expiry has at most 5 characters |
| Step12Payment.FormattedExpiryShape | src/components/signup/Step12Payment.tsx:29-97 | the formatted expiry has the shape `dd/dd` exactly when 4 digits were typed |
| Step12Payment.FormatExpiryIdempotent | src/components/signup/Step12Payment.tsx:87-108 | formatting an already formatted expiry changes nothing |
| Step12Payment.Submit | src/components/signup/Step12Payment.tsx:29-74 | a card number without 16 non-space code units is refused first, then an expiry not shaped `dd/dd`; success needs a CVV of at least 3 code units and resets the sign-up |
| Step12Payment.TypedFormAccepted | src/components/signup/Step12Payment.tsx:29-108 | a form filled through the formatters is accepted exactly when 16 card digits, 4 expiry digits and a CVV of 3 or more code units were typed |
| Step12Payment.Back | src/components/signup/Step12Payment.tsx:109-113 | "back" saves only the card and leaves the step as it is |
| Step12Payment.BackThenMountRestores | src/components/signup/Step12Payment.tsx:18-23 | reopening after "back" shows the same card |
| Step3Industry.SelectIndustry | src/components/signup/Step3Industry.tsx:22-24 | a click saves exactly that industry and nothing else |
| Step3Industry.Submit | src/components/signup/Step3Industry.tsx:26-42 | "continue" succeeds exactly when an industry is chosen, and only moves to step 4 |
| Step3Industry.Back | src/components/signup/Step3Industry.tsx:44-46 | "back" shows step 2 and changes nothing else |
| Step3Industry.LastClickWins | src/components/signup/Step3Industry.tsx:22-42 | the last click decides the saved industry, and after any click "continue" succeeds |
| Step4Categories.ToggleCategory | src/components/signup/Step4Categories.tsx:30-50 | a click is refused exactly when adding a fourth category; otherwise it toggles and saves only the categories |
| Step4Categories.ToggleKeepsSelectionValid | src/components/signup/Step4Categories.tsx:9-50 | the saved categories stay duplicate-free and at most 3, and the clicked one's membership flips |
| Step4Categories.ToggleTwiceRestores | src/components/signup/Step4Categories.tsx:30-50 | below the cap, two clicks on a new category restore the saved list |
| Step4Categories.Submit | src/components/signup/Step4Categories.tsx:52-68 | "continue" succeeds exactly with at least one category, and only moves to step 5 |
| Step4Categories.Back | src/components/signup/Step4Categories.tsx:70-72 | "back" shows step 3 and changes nothing else |
| Step5Platforms.TogglePlatform | src/components/signup/Step5Platforms.tsx:73-86 | a click toggles the platform and saves only the platform list |
| Step5Platforms.ToggleKeepsNoDuplicates | src/components/signup/Step5Platforms.tsx:73-86 | the saved platforms stay duplicate-free, and the clicked one's membership flips |
| Step5Platforms.ToggleTwice | src/components/signup/Step5Platforms.tsx:73-86 | two clicks restore an absent platform's list, and keep the same members (moved to the end) for a present one |
| Step5Platforms.Submit | src/components/signup/Step5Platforms.tsx:88-104 | "continue" succeeds exactly with at least one platform, and only moves to step 6 |
| Step5Platforms.Back | src/components/signup/Step5Platforms.tsx:106-108 | "back" shows step 4 and changes nothing else |
| Step6ContentVolume.SelectVolume | src/components/signup/Step6ContentVolume.tsx:22-24 | a click saves exactly that volume and nothing else |
| Step6ContentVolume.Submit | src/components/signup/Step6ContentVolume.tsx:26-42 | "continue" succeeds exactly when a volume is chosen, and only moves to step 7 |
| Step6ContentVolume.Back | src/components/signup/Step6ContentVolume.tsx:44-46 | "back" shows step 5 and changes nothing else |
| Step6ContentVolume.LastClickWins | src/components/signup/Step6ContentVolume.tsx:22-42 | the last click decides the saved volume, and after any click "continue" succeeds |
| Step7Budget.SelectBudget | src/components/signup/Step7Budget.tsx:23-25 | a click saves exactly that budget and nothing else |
| Step7Budget.Submit | src/components/signup/Step7Budget.tsx:27-50 | "continue" succeeds exactly when a budget is chosen, and then the completion message shows |
| Step7Budget.StartOver | src/components/signup/Step7Budget.tsx:52-55 | "start over" resets the whole sign-up |
| Step7Budget.LastClickWins | src/components/signup/Step7Budget.tsx:23-50 | the last click decides the saved budget, and after any click "continue" completes |
| ForgotPassword.StartConsistent | src/pages/ForgotPassword.tsx:10-12 | the page opens on the request screen with nothing entered |
| ForgotPasswordRequest.Submit | src/components/forgotPassword/ForgotPasswordRequest.tsx:23-58 | an empty e-mail is refused first; the request is accepted exactly when the e-mail matches the pattern, then the page keeps it and shows the code screen |
| ForgotPasswordRequest.SubmitKeepsConsistent | src/components/forgotPassword/ForgotPasswordRequest.tsx:27-58 | past the request screen the page always holds a valid e-mail |
| VerifyResetOtp.Verify | src/components/forgotPassword/VerifyResetOTP.tsx:81-112 | the code is accepted exactly when it is 123456, refused as incomplete exactly when short, and on success becomes the reset token with the reset screen shown |
| VerifyResetOtp.Back | src/components/forgotPassword/VerifyResetOTP.tsx:126-128 | "back" returns to the request screen and keeps the e-mail |
| VerifyResetOtp.TransitionsKeepConsistent | src/pages/ForgotPassword.tsx:17-37 | on the reset screen the page always holds a valid e-mail and the accepted code |
| ResetPassword.Submit | src/components/forgotPassword/ResetPassword.tsx:22-64 | a missing field is refused first, then a password under 8 UTF-16 code units, then a mismatched confirmation |
| ResetPassword.SubmitAcceptsExactly | src/components/forgotPassword/ResetPassword.tsx:22-64 | the reset is accepted exactly when the password has at least 8 code units and the confirmation equals it |

## Left out

- Rendering: layout, icons, progress bar, selection cards and the mobile check are not modelled. Nor are the loading and "checking" flags, which only disable buttons while a simulated delay runs.
- Timing: every `setTimeout` completes at once. The countdown's interval is modelled as one `Tick` per second.
- Notifications: the text of the toasts is not modelled. Each failure is an error tag.
- Navigation: `navigate`, `window.location` and `history` are not modelled.
- Focus handling: the box-to-box focus moves on the code screens (`handleKeyDown`, focusing the next box) are not modelled.
- Third-party sign-in: the Google and X buttons on step 1 only show a notification.
- `console.log` calls are not modelled.
- Step7SocialProfiles.AddProfile: the `URL` constructor is a parameter `isValidUrl`, because URL parsing is not modelled.
- Step10ContentPackages.PriceOf: `parseFloat` is a parameter. Prices are real numbers, so NaN and floating-point rounding are not modelled.
- Step9ContentImages.AddImage: the random choice among the placeholder images is not modelled, because all five placeholders have the same path.
- Step9ContentImages.SetProfilePicture: requires an index inside the list. The screen only offers indices of displayed images, and in the source an index past the end would throw.
- Step9ContentImages.SetProfilePicture: the source flips the flags on image objects it shares with the saved draft. The model copies them, so the saved draft changes only through "back" and "continue".
- Step10ContentPackages.ChangePackage: requires an index inside the list, because each card edits only itself.
- Text.Last: a final character above U+FFFF is returned whole. JavaScript's `slice(-1)` returns its low surrogate. The only caller passes empty or all-digit text, where the two agree.
- Text.ToLower: folds ASCII letters only. Full Unicode case mapping of `toLowerCase` is not modelled.
- Step11PhoneVerification.SetOtp: the code component's own handling of non-digits is not modelled. Only its length cap of 6 is.
- Text.TakeUnits: a cut that falls inside a surrogate pair drops the whole character. JavaScript's `slice` keeps the lone high surrogate there, which a Dafny `char` cannot hold.
- Step4Title.Edit: at the 60-unit cut, a lone high surrogate is not kept (see Text.TakeUnits).
- Step5Bio.Edit: at the 500-unit cut, a lone high surrogate is not kept (see Text.TakeUnits).
- Step11PhoneVerification.SetOtp: at the 6-unit cut, a lone high surrogate is not kept (see Text.TakeUnits).
- Step1BasicInfo.Submit: the browser's own check of the `type="email"` field is not modelled. Inside the form it blocks submission of values it rejects (such as "a@b_c.com" or "ü@x.com") before the handler runs. The model accepts whatever the handler's pattern accepts.
- ForgotPasswordRequest.Submit: the browser's own check of the `type="email"` field is not modelled, as for Step1BasicInfo.Submit.
- Choices offered by drop-downs and cards: the country list, the seven platforms offered on step 7 and the option lists are not restricted. Each handler accepts any value of its type.
- Browser `maxLength` on the card, expiry, CVV and code inputs is not modelled separately. The formatters already bound the card and expiry text.
- The page's wrapping in the context provider, and the error `useSignup` raises outside a provider, are not modelled.
- The login, dashboard, landing and application-form pages are not part of this model.
- Step12Payment.Submit: the CVV and the month are not checked for digits or range, because the source does not check them either.

## Findings

| source | as written | input that shows it | evidently intended | confidence | as-written member | corrected member |
|---|---|---|---|---|---|---|
| src/components/signup/Step11PhoneVerification.tsx:110-135 | once the code box is shown, "continue" checks only that it holds six code units, then saves and moves to step 12 | an unverified phone "5550100", code box shown, code "000000": verification refuses this code, yet "continue" reaches step 12 with the phone unverified | "continue" moves on only once the phone is verified, and sends the code otherwise | medium; not executed | Step11PhoneVerification.WrongCodeStillContinues | Step11PhoneVerification.SubmitVerified |
