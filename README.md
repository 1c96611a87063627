# RoomsData: the room create/edit form, modelled in Dafny

This project models the non-UI logic of the `RoomsData` component of a room-booking
admin dashboard (`src/Modules/RoomsModule/components/RoomsData/RoomsData.tsx`): the form
that creates a room or edits an existing one. The model covers:

- how the room id is read from the page path (`pathname.split("/")[3]`);
- how the form values are serialised into FormData (`appendToFormData`);
- how the request is chosen: PUT `/admin/rooms/{roomId}` in edit mode, POST `/admin/rooms` otherwise;
- the `required` rules declared at the six `register` calls and the `handleSubmit` gate in front of `onSubmit`;
- the `loading` / `spinner` flags around the two awaited requests (submit and the facilities load);
- the edit-mode seeding of the form from the room passed in the navigation state.

Modules, one per concern, in `wrappers.dfy`, `paths.dfy`, `payload.dfy`, `validation.dfy`,
`routing.dfy`, `rooms_data.dfy`, and scenarios (traces of the component) in `scenarios.dfy`:

- `Paths`: `Split`/`Join` on a one-character separator, with the round trip and the piece count, and `RoomId`.
- `FormPayload`: the FormData entries as `seq<(string, FormDataValue)>`, the builder `AppendToFormData`
  (a method with the source's loops), and a reference reader `ParseFormData` that recovers the form from a body.
- `Validation`: the form store (`FormValues`, `None` for `undefined`), the rule messages, `RequiredErrors` and `Validate`.
- `Routing`: `RequestFor`, the method/url choice, and the lemma that the url of an edit request names the page's room.
- `RoomsData`: the component as a class `RoomsDataForm` whose fields are the component state
  (`facilitiesList`, `loading`, `spinner`, the form store, the validation errors) plus an event log of the
  calls into collaborators (GET, PUT/POST, toasts, navigation). Each async function is split at its `await`:
  the method before the await raises the flag and sends the request, the `...Settled` method takes the
  outcome (`Resolved(value)` or `Rejected(message)`) as a parameter and runs the `try`/`catch` continuation.
  `Valid()` is the invariant every method keeps: a flag is raised only while a request is outstanding, every
  navigation directly follows a success toast, and every request sent goes to this page's route.
  `Valid()` says nothing about the request body: that comes from `OnSubmit`, which ensures the body is
  what `AppendToFormData` builds from its argument. That the body reads back as a room with non-empty scalar fields and at least one image is a
  property of `HandleSubmit`, which sends only validated values (`CompleteBodyIsSentRoom`).

Behaviour modelled as the code has it:

- Facilities are sent as the array holds them, duplicates included; nothing deduplicates them.
- The seeding loop sets `imgs` once per stored image, each time replacing the previous value, so only
  the last stored image survives; with no stored image `imgs` stays unset. `[...s]` spreads a stored
  image string into one-character strings, so `imgs` holds those characters.
- A second submit while the first is in flight is not rejected; the first settlement lowers `loading`
  while the second request is still outstanding (`Scenarios.SecondSubmitInFlight`).
- There is no pristine/dirty state and no handling of preview handles.
- In edit mode with a path that has fewer than three '/' (such as `/dashboard/rooms`), `roomId` is
  `undefined` and the url is `/admin/rooms/undefined` (template-literal interpolation).

## Model

| member | source | states |
|---|---|---|
| `Paths.Split` | src/Modules/RoomsModule/components/RoomsData/RoomsData.tsx:30 | splitting on '/' yields at least one piece and no piece contains '/' |
| `Paths.SplitLength` | src/Modules/RoomsModule/components/RoomsData/RoomsData.tsx:30 | the number of pieces is the number of '/' plus one |
| `Paths.JoinSplit` | src/Modules/RoomsModule/components/RoomsData/RoomsData.tsx:30 | joining the pieces with '/' gives the path back (nothing is lost by the split) |
| `Paths.SplitConcat` | src/Modules/RoomsModule/components/RoomsData/RoomsData.tsx:30 | a '/' between two strings separates their pieces |
| `Paths.RoomId` | src/Modules/RoomsModule/components/RoomsData/RoomsData.tsx:30 | the room id is defined exactly when the path has at least three '/', and it contains no '/' |
| `Paths.RoomIdOfPath` | src/Modules/RoomsModule/components/RoomsData/RoomsData.tsx:30 | for `/a/b/id` (optionally followed by more segments) the room id is `id`; e.g. `/dashboard/rooms/abc` gives `abc` |
| `Paths.RoomIdOfShortPath` | src/Modules/RoomsModule/components/RoomsData/RoomsData.tsx:30 | a two-segment path such as `/admin/rooms` has no room id |
| `FormPayload.AppendToFormData` | src/Modules/RoomsModule/components/RoomsData/RoomsData.tsx:57-74 | the body is `roomNumber`, `price`, `capacity`, `discount` with the form's values, then one `facilities[]` entry per array element in order (none when not an array), then one `imgs` entry per image in index order; its length is 4 + facilities + images |
| `FormPayload.ParseAfterAppend` | src/Modules/RoomsModule/components/RoomsData/RoomsData.tsx:57-74 | reading a built body back by entry name recovers every field, the facilities as the ids that were appended |
| `FormPayload.EncodesDeterministic` | src/Modules/RoomsModule/components/RoomsData/RoomsData.tsx:57-74 | one form state has exactly one body |
| `FormPayload.ReadFacilityEntries` | src/Modules/RoomsModule/components/RoomsData/RoomsData.tsx:63-67 | the reader takes exactly the leading `facilities[]` text entries and returns the rest unchanged |
| `FormPayload.ReadImageEntries` | src/Modules/RoomsModule/components/RoomsData/RoomsData.tsx:69-71 | the remaining entries are read as images exactly when every one is named `imgs`, keeping their order |
| `Validation.RequiredErrors` | src/Modules/RoomsModule/components/RoomsData/RoomsData.tsx:136-267 | a field gets an error exactly when its value is undefined, empty text or an empty array, and the error carries that field's own fixed message |
| `Validation.Validate` | src/Modules/RoomsModule/components/RoomsData/RoomsData.tsx:125 | validation succeeds exactly when no rule fails, and then hands on the stored values, all non-empty; otherwise it returns the (non-empty) errors |
| `Validation.FreshFormFailsEveryRule` | src/Modules/RoomsModule/components/RoomsData/RoomsData.tsx:136-267 | a form nobody filled in fails all six rules |
| `Routing.Interpolate` | src/Modules/RoomsModule/components/RoomsData/RoomsData.tsx:85 | a defined room id is inserted into the url as it is; an undefined one is printed as the text "undefined" |
| `Routing.RequestFor` | src/Modules/RoomsModule/components/RoomsData/RoomsData.tsx:83-87 | PUT exactly when `state` is "edit", to `/admin/rooms/` + room id; otherwise POST to `/admin/rooms`; the body is the built payload in both cases |
| `Routing.RequestTargetsRoom` | src/Modules/RoomsModule/components/RoomsData/RoomsData.tsx:30-85 | the url of an edit request names the page's room at the same path position (or "undefined" when the path has none); a create url names no room |
| `RoomsData.FacilityIds` | src/Modules/RoomsModule/components/RoomsData/RoomsData.tsx:107-110 | the ids of the room's facilities, one per facility, in the same order |
| `RoomsData.SpreadChars` | src/Modules/RoomsModule/components/RoomsData/RoomsData.tsx:113 | spreading a string gives one one-character string per character, in order |
| `RoomsData.SeededFacilities` | src/Modules/RoomsModule/components/RoomsData/RoomsData.tsx:107-110 | seeding sets `facilities` to an array of the room's facility ids, same length and order |
| `RoomsData.SeededValidates` | src/Modules/RoomsModule/components/RoomsData/RoomsData.tsx:102-115 | a seeded form passes validation exactly when the room's scalars are non-empty, it has a facility, and its last stored image is non-empty (without stored images, only if `imgs` was already set to a non-empty value) |
| `RoomsData.CompleteBodyIsSentRoom` | src/Modules/RoomsModule/components/RoomsData/RoomsData.tsx:78-87 | the body built from validated values reads back as a room with non-empty scalars and at least one image |
| `RoomsData.RoomsDataForm.constructor` | src/Modules/RoomsModule/components/RoomsData/RoomsData.tsx:26-42 | the component starts with an empty facilities list, both flags down, an empty form and `roomId` read from the path |
| `RoomsData.RoomsDataForm.GetFacilitiesList` | src/Modules/RoomsModule/components/RoomsData/RoomsData.tsx:44-47 | `spinner` goes up and the GET of `/admin/room-facilities` is sent; nothing else changes |
| `RoomsData.RoomsDataForm.GetFacilitiesListSettled` | src/Modules/RoomsModule/components/RoomsData/RoomsData.tsx:47-54 | `spinner` goes down on both paths; on success the list is replaced wholesale by the response; on failure the list is unchanged and an error toast carries the message |
| `RoomsData.RoomsDataForm.SeedEditValues` | src/Modules/RoomsModule/components/RoomsData/RoomsData.tsx:102-115 | only in edit mode with a room: the scalars, the facility ids and (when there are stored images) the spread of the last image are set; otherwise the form is unchanged |
| `RoomsData.RoomsDataForm.MountEffect` | src/Modules/RoomsModule/components/RoomsData/RoomsData.tsx:99-115 | the facilities load starts and the form is seeded |
| `RoomsData.RoomsDataForm.OnSubmit` | src/Modules/RoomsModule/components/RoomsData/RoomsData.tsx:78-87 | `loading` goes up and one request is sent, routed by the mode, carrying the body built from the values |
| `RoomsData.RoomsDataForm.OnSubmitSettled` | src/Modules/RoomsModule/components/RoomsData/RoomsData.tsx:87-96 | `loading` goes down on both paths; on success a success toast then navigation to `/dashboard/rooms`; on failure only an error toast; the form values are not touched |
| `RoomsData.RoomsDataForm.HandleSubmit` | src/Modules/RoomsModule/components/RoomsData/RoomsData.tsx:125 | a request is sent exactly when every rule passes, routed by the mode and carrying the body built from the validated values; otherwise the errors of the failing rules are recorded and nothing is sent |

## Left out

- `src/Modules/SharedModule/components/SideBar/SideBar.tsx` and `src/Modules/LandingPageModule/components/Explore.tsx` are not part of this model: layout, toggles and a timer-driven logout with no data logic.
- JSX rendering and styling, including the `renderValue` callback (it refers to an undefined `facility` and its braces do not match) and the unimported `CircularProgress` and `FacilitiesProps`.
- Image previews through `URL.createObjectURL`: the code creates them during rendering and never revokes them; there is no handle bookkeeping to model.
- The disabled state of the second Save button while `loading` is rendering; the first Save button is never disabled, and the model does not reject a second submit.
- The effect's cleanup: `timeoutRef` is never assigned, so clearing it does nothing; a load that settles after unmount is not modelled.
- The effect re-running when `roomData` changes: the model mounts once.
- `userRequest`, `getErrorMessage`, `showToast` and `navigate` are collaborators whose code is not part of this model: requests, toasts and navigation are recorded as events, and each request's outcome (the response, or the extracted error message) is a parameter.
- react-hook-form internals: user typing is not an operation of the model (scenarios set the store directly); `required` treats undefined, the empty string and the empty array as empty, without the library's special cases for file inputs and checkboxes.
- RoomsData.SeededValidates (and Scenarios.SeededEditSubmit): the `imgs` field is registered on a native file input (RoomsData.tsx:260-268). In react-hook-form, `setValue` cannot put a value into a file input (it clears the element), and the `required` rule then checks the element's own empty value. The model reads `imgs` from the form store only. So a seeded edit form whose last stored image is non-empty passes validation in the model, but in the browser it fails "imgs is required" until the user picks files. As a result the PUT that `Scenarios.SeededEditSubmit` derives, with one `imgs` text entry per character of the image URL, is not reachable in the browser without a new file choice.
- The `defaultValue={roomData?.price}`, `{roomData?.capacity}` and `{roomData?.discount}` props (RoomsData.tsx:158, 176, 196) are not modelled. They prefill three inputs whenever `roomData` is present, in edit mode or not, so the empty form of `RoomsDataForm.constructor` matches the page only when no room was passed in the navigation state.
- Each stored image of the edited room (`roomData.images[i]`) is assumed to be a string, such as a URL. Nothing in the component fixes its shape, and if it were an object the spread at RoomsData.tsx:113 would throw a TypeError, which the model does not represent.
- Values of the edited room are modelled as strings; the conversion of API numbers to strings by `setValue` and `FormData.append` is not modelled, and facility objects are assumed non-null (`item?._id`).
- `data?.roomNumber` being `undefined` (appended as the text "undefined") and `data.imgs` being undefined (a TypeError in the loop) cannot reach `onSubmit` after validation; `Inputs` holds strings and a sequence.
- The multipart encoding of the FormData by the browser (RFC 7578).
