# Intern form workflow and user profile service — a verified model

This project models two pieces of decision logic of an internship-management
application.

- **The intern-creation modal** of the React frontend (`InternFormModal`).
  It keeps four pieces of state: `formData`, `encadreurs` (the supervisor
  options), `loading` and `emailError`. When the modal opens, it clears the
  email error and resolves the supervisor options. For the `ENCADREUR` role,
  when the session holds a truthy supervisor id, that id becomes the only
  option and is pre-selected; otherwise options and form stay as they were.
  Any other role gets the full directory. On submit, the modal
  checks that no field is empty. It then renames the form into the creation
  request and sends it. Success resets the form and closes the modal. A
  `USER_EXIST` failure shows an inline email error. Any other failure goes to
  the error reporter.
- **The user profile service** of the Spring backend (`UserService`). It
  reads a user by email and applies partial profile updates, where a null
  value means "keep the stored value". It also checks an avatar upload: the
  user exists, the file is non-empty, and the content type is `image/…`. It
  then derives the stored file name and the avatar URL.

Files:

- `basics.dfy`, module `Basics`: `Option` and `Result`.
- `intern_form.dfy`, module `InternFormWorkflow`: the pure parts (`Capitalize`,
  the required-field check, the request mapping, the supervisor resolution
  `Resolve`) and the class `InternFormModal`, whose methods update the
  component's state. Outward calls are appended to a ghost log, `effects`.
  These are the directory fetch, `createIntern`, `alert`, `handleApiError`,
  `onSubmit` and `onClose`.
- `user_service.dfy`, module `UserProfileService`: the pure parts (`ApplyUpdate`,
  `CheckUpload`, `LastIndexOf`, `FileExtension`, `AvatarUrl`) and the class
  `UserService` over a repository `users: map<string, User>` keyed by email.
  The files written are logged in the ghost field `storedFiles`.

Inputs that are not computed by the code are method parameters:

- the caller's role (`authUser?.role`);
- the settled outcome of each remote call (`Fetch`, `Creation`);
- the content of the session storage (`StoredUser`);
- the random UUID and the outcome of the file copy (`CopyOutcome`).

Remote calls and interleaving:

- The directory fetch and the session read are one step, `LoadEncadreurs`.
  Nothing can run between the fetch and its result.
- `handleSubmit` is split at the `await` of `createIntern` into
  `StartSubmit` and `FinishSubmit`. Between the two, the state is pending:
  `loading` is true, and `pendingSubmit` holds the form that the handler's
  closure captured. In that state the model allows text edits
  (`EditText`), supervisor changes (`SelectEncadreur`) and prop changes
  (`IsOpenChanged`), as the component does. It allows no second
  submission, because the submit button is disabled while `loading`.
- `onSubmit` receives the captured form, whatever was typed since.
- `HandleSubmit` runs `StartSubmit` and then `FinishSubmit`, with nothing
  in between.

Behaviour of the code that the model keeps:

- `JSON.parse` failures are reported. If `JSON.parse` rejects the stored
  text, or the text parses to `null` so reading `.encadreurId` throws, the
  error lands in the `catch` at line 67. It is reported through
  `handleApiError` with the loading context (`Unreadable` in the model).
- A failed directory fetch leaves the option list as it was.
- For the `ENCADREUR` role, the code puts the bare stored id into the option
  list (`BareId`), not a supervisor record. It discards the fetched
  directory in that branch.

## Model

| member | source | states |
|---|---|---|
| `InternFormWorkflow.Capitalize` | frontend/src/components/Modals/InternFormModal.tsx:13-16 | "" maps to ""; otherwise the length is kept, the first character is upper-cased and every later one lower-cased (ASCII letters) |
| `InternFormWorkflow.LowerAll` | frontend/src/components/Modals/InternFormModal.tsx:15 | `toLowerCase` keeps the length and lower-cases each character in place |
| `InternFormWorkflow.CapitalizeIdempotent` | frontend/src/components/Modals/InternFormModal.tsx:13-16 | capitalizing twice equals capitalizing once |
| `InternFormWorkflow.ToUpper` | frontend/src/components/Modals/InternFormModal.tsx:15 | `toUpperCase` on one character: ASCII lower-case letters become upper-case, every other character is unchanged |
| `InternFormWorkflow.ToLower` | frontend/src/components/Modals/InternFormModal.tsx:15 | `toLowerCase` on one character: ASCII upper-case letters become lower-case, every other character is unchanged |
| `InternFormWorkflow.WithText` | frontend/src/components/Modals/InternFormModal.tsx:175-346 | a text input's change sets that field and leaves every other field and the supervisor id as they were |
| `InternFormWorkflow.MissingRequired` | frontend/src/components/Modals/InternFormModal.tsx:80-90 | a form that passes the guard has every text field non-empty and a non-zero supervisor; the default form never passes |
| `InternFormWorkflow.MissingRequiredIff` | frontend/src/components/Modals/InternFormModal.tsx:80-93 | the submit guard fires exactly when some text field is empty or the supervisor id is 0 |
| `InternFormWorkflow.ClearedFieldIsRejected` | frontend/src/components/Modals/InternFormModal.tsx:80-93 | a form with any single text field cleared is rejected by the guard |
| `InternFormWorkflow.ToRequest` | frontend/src/components/Modals/InternFormModal.tsx:97-107 | the request is a lossless renaming of the form (`FromRequest` recovers it); a form that passed the guard gives a request with no empty field and a non-zero supervisor |
| `InternFormWorkflow.RequestRoundTrip` | frontend/src/components/Modals/InternFormModal.tsx:97-107 | every request is the request of the form `FromRequest` rebuilds from it, so the renaming is a bijection |
| `InternFormWorkflow.IsEncadreurRole` | frontend/src/components/Modals/InternFormModal.tsx:51 | `authUser?.role === "ENCADREUR"`: false without an authenticated user, true only for that exact role (the same test disables the select at line 304) |
| `InternFormWorkflow.ForcedEncadreur` | frontend/src/components/Modals/InternFormModal.tsx:52-56 | a forced id is non-zero and is the parsed blob's `encadreurId`; none when there is no item, the read throws, or the id is absent or 0 |
| `InternFormWorkflow.Records` | frontend/src/components/Modals/InternFormModal.tsx:65 | the option list holds the fetched directory element for element, in order |
| `InternFormWorkflow.Resolve` | frontend/src/components/Modals/InternFormModal.tsx:47-70 | only the supervisor id can change, only for the `ENCADREUR` role, and then the options are exactly that id; a failure changes nothing and is reported; other roles get the directory with the form untouched; a truthy stored id becomes the only option and the selection; a missing or falsy id changes nothing; an unreadable session is reported as a session-read failure |
| `InternFormWorkflow.IsUserExist` | frontend/src/components/Modals/InternFormModal.tsx:127 | the duplicate-email case needs a service failure whose response code is `USER_EXIST`; a failure without a response, or a session-read failure, never counts as one |
| `InternFormWorkflow.InternFormModal.constructor` | frontend/src/components/Modals/InternFormModal.tsx:23-45 | the state starts at the defaults; mounting open runs the resolution once and clears the email error |
| `InternFormWorkflow.InternFormModal.LoadEncadreurs` | frontend/src/components/Modals/InternFormModal.tsx:47-70 | the form and options become `Resolve`'s; the log gains the fetch and, on failure, one report with the loading context; `loading` and `emailError` are untouched |
| `InternFormWorkflow.InternFormModal.IsOpenChanged` | frontend/src/components/Modals/InternFormModal.tsx:40-45 | opening clears `emailError` and runs the resolution; any other prop change touches no state and makes no call |
| `InternFormWorkflow.InternFormModal.EditText` | frontend/src/components/Modals/InternFormModal.tsx:175-346 | the form becomes `WithText` of the old form; nothing else changes |
| `InternFormWorkflow.InternFormModal.SelectEncadreur` | frontend/src/components/Modals/InternFormModal.tsx:298-303 | only the supervisor id changes |
| `InternFormWorkflow.InternFormModal.StartSubmit` | frontend/src/components/Modals/InternFormModal.tsx:74-109 | `emailError` is cleared; an incomplete form raises the alert and sends nothing, with `loading` and the form unchanged; a complete form is captured and sends `ToRequest(form)` with `loading` true |
| `InternFormWorkflow.InternFormModal.FinishSubmit` | frontend/src/components/Modals/InternFormModal.tsx:109-134 | only a pending submission can settle, and `loading` ends false; success calls `onSubmit` once with the form captured at submit time (the one whose request was sent), resets the form and calls `onClose`; `USER_EXIST` sets the inline message and calls nothing; other failures are reported once; failures keep the form |
| `InternFormWorkflow.InternFormModal.HandleSubmit` | frontend/src/components/Modals/InternFormModal.tsx:74-135 | the whole handler: the same outcomes, with `createIntern` called exactly when the guard passes |
| `UserProfileService.UserService.GetUserByEmail` | src/main/java/com/internship/management/service/UserService.java:26-29 | fails with `USER_NOT_FOUND` exactly when no user has that email, otherwise returns that user |
| `UserProfileService.Merge` | src/main/java/com/internship/management/service/UserService.java:37-51 | a non-null requested value wins, a null one keeps the stored value, so a field never becomes null |
| `UserProfileService.ApplyUpdate` | src/main/java/com/internship/management/service/UserService.java:37-51 | each of nom, prenom, phone, department, avatar is overwritten exactly when the request's value is non-null; every other field, email included, is kept |
| `UserProfileService.ApplyUpdateIdempotent` | src/main/java/com/internship/management/service/UserService.java:37-53 | applying the same request twice gives the same user as applying it once |
| `UserProfileService.UserService.constructor` | src/main/java/com/internship/management/service/UserService.java:20-23 | the service starts over a repository whose users are stored under their own emails |
| `UserProfileService.UserService.UpdateUserProfile` | src/main/java/com/internship/management/service/UserService.java:33-55 | an unknown email fails with `USER_NOT_FOUND` and saves nothing; otherwise that user becomes `ApplyUpdate` of it, is returned, and no other user changes |
| `UserProfileService.Message` | src/main/java/com/internship/management/service/UserService.java:59-94 | every exception message is non-empty; only an I/O failure's message carries the upload prefix, followed by the I/O message |
| `UserProfileService.MessageInjective` | src/main/java/com/internship/management/service/UserService.java:59-94 | the service's failures reach the client as pairwise different messages |
| `UserProfileService.CheckUpload` | src/main/java/com/internship/management/service/UserService.java:59-69 | the checks run in order: unknown user, then empty file, then a content type that is null or not `image/…`; the upload proceeds only when all pass |
| `UserProfileService.IsImageType` | src/main/java/com/internship/management/service/UserService.java:66-67 | a null content type is rejected; an accepted one is "image/" followed by its remainder |
| `UserProfileService.IsImageTypeIff` | src/main/java/com/internship/management/service/UserService.java:66-69 | a content type is accepted exactly when it is "image/" followed by anything |
| `UserProfileService.LastIndexOf` | src/main/java/com/internship/management/service/UserService.java:75 | the index of the last occurrence of the character, absent exactly when it does not occur |
| `UserProfileService.FileExtension` | src/main/java/com/internship/management/service/UserService.java:72-76 | "" for a null name or one without a dot; otherwise the tail from the last dot, which starts with the dot and has no other dot |
| `UserProfileService.DotSuffixUnique` | src/main/java/com/internship/management/service/UserService.java:72-76 | a name has only one such tail, so those two properties alone determine the extension |
| `UserProfileService.StoredFileName` | src/main/java/com/internship/management/service/UserService.java:72-78 | the UUID followed by the extension; with a dot-free UUID the stored file has the same extension as the uploaded file |
| `UserProfileService.AvatarUrl` | src/main/java/com/internship/management/service/UserService.java:79-88 | the URL is the prefix `/uploads/profile-images/` followed by the file name, and under `frontend/public` it names exactly the file written into the upload directory |
| `UserProfileService.UserService.UploadAvatar` | src/main/java/com/internship/management/service/UserService.java:57-96 | a failed check returns that error and changes nothing; a failed copy returns the upload error and changes nothing; a successful copy records the written file, sets only that user's avatar to the returned URL and changes no other user |

## Left out

- Rendering (JSX, styling, the department option list, the busy label).
  The rendering facts kept are three:
  - The form and its inputs exist only while `isOpen` holds, so the input
    handlers and the submit handlers require it.
  - The submit button is disabled while `loading`, so `StartSubmit` and
    `HandleSubmit` require `!loading`.
  - `IsEncadreurRole` is also the rule that disables the supervisor select.
    `SelectEncadreur` does not take the role, so it does not exclude that
    case.
- `e.preventDefault()` and other browser event plumbing.
- Interleaving with a pending directory fetch. `LoadEncadreurs` is one
  step, so edits made while the fetch is pending and overlapping loads after
  quick reopenings are not modelled. A creation that settles after the modal
  closed is modelled (`FinishSubmit` does not require `isOpen`).
- FinishSubmit, HandleSubmit: the callbacks `onSubmit` and `onClose` and the
  reporter `handleApiError` are taken not to throw. In the code, `onSubmit`
  and `onClose` run inside the `try`. If either throws after a successful
  creation, the `catch` reports a creation error, and the form may not be
  reset or the modal closed. If `handleApiError` throws, the error escapes
  the handler after `finally` has cleared `loading`.
- `internService`, `encadreurService`, `useApiError`, `useAuth`, `alert`,
  `localStorage`, `JSON.parse`. Their code is not part of this model: their
  results are parameters and their calls are entries of the ghost log.
- Capitalize: upper- and lower-casing cover ASCII letters only. JavaScript's
  full Unicode case mapping is not modelled, and under it both the
  length-keeping and the idempotence stated by `Capitalize` and
  `CapitalizeIdempotent` fail: "ß" capitalizes to "SS", and "SS" to "Ss".
  Nor is the `null`/`undefined` argument that `!str` also catches.
- The supervisor id is an integer throughout. A non-numeric id read from the
  session and the coercion `Number(...)` of such a value (which gives `NaN`)
  are not modelled; on integers `Number` is the identity.
- `UserDTO.fromEntity` and `MessageCode` are not part of this model. The
  service returns the stored `User` itself. `User` carries id, password and
  role to stand for the entity fields the service never writes.
- Spring's `@Transactional` rollback and JPA's identity-based `save`. The
  repository is a map keyed by email and `save` stores under the user's email.
- A null update request, whose getters would throw a `NullPointerException`
  at line 37. Also a null email: what `userRepository.findByEmail` does
  with `null` is not shown.
- `UUID.randomUUID`, `Files.exists`, `Files.createDirectories`, `Files.copy`
  and the `MultipartFile` stream. The UUID and the copy outcome are
  parameters, and a failure of any of them is one `IoFailed` outcome.
- `UserController.java`: a thin REST wrapper. It delegates to the service
  and turns each exception's message into a 400 response.
