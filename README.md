# User-management screen: list rules, form validation, request executor and user store

This project models the client-side core of a small user-management screen
(list, search, sort, add, edit and delete user records against a REST/JSON
API) and proves properties of that model in Dafny.

- `common.dfy` (module `Common`): the `User` record `{ id?, name, email }`,
  `Option` for `undefined`/`null`, and `Result` for an operation that throws.
- `text.dfy` (module `Text`): the string operations the screen relies on —
  `toLowerCase` as an ASCII case fold, the `\s` class of JavaScript regular
  expressions, `String.prototype.includes` as a left-to-right scan proved
  equal to "occurs at some position", and `<` on strings as a recursive
  comparison proved to be a strict total order and equal to its reference
  reading (proper prefix or smaller first difference).
- `user_list.dfy` (module `UserList`): the list view. The search filter is a
  function proved sound, complete and order-preserving. The sort comparator
  is a function, and `Array.prototype.sort` is a stable insertion sort proved
  to return a permutation, ordered by lowered value whenever every user has a
  non-empty value for the column. The component's state cells are the fields
  of the class `ListView`, and each handler and the search effect is a method
  on it. The users list and the debounced search text are inputs.
- `user_form.dfy` (module `UserForm`): the add/edit form. `ValidateField`
  is stated against a declarative reading of `/\S+@\S+\.\S+/.test`.
  `CollectErrors` is the loop of `validateForm`, proved to build exactly the
  error map of the failing fields. The class `Form` holds the cells
  `formData`, `errors`, `isValid` and `hasTouched`, and its methods are the
  handlers and the two effects.
- `api.dfy` (module `Api`): the request executor `useFetch`, as the class
  `Executor` with the cells `data`, `loading` and `error`. `Begin` is the
  part of `fetchData` before its first `await` and `Settle` the part after
  it. The four wrappers `useGet`, `usePost`, `usePatch` and `useDelete` are
  functions that build the call. How a call ends (a response with `ok`, one
  without, or a thrown value) is an input.
- `user_context.dfy` (module `UserContext`): the store `UserProvider` as the
  class `Store`. It owns four executors and the log of issued requests. Each
  mutation issues its request and then, without waiting, a list request.
  The exposed `users`, `loading` and `error` are read from the list executor
  only. `UseUsers` is the guard of `useUsers`.

Notes on behaviour the model follows from the code:

- `fetchData` reads the misspelt property `mesage` of the caught value. An
  `Error` has no such property, so for every response without `ok` and every
  error thrown by `fetch` or `json()` the stored error is the fallback text
  `'Something went wrong'`. The status text is never shown.
- The wrappers do not return the promise of `fetchData`, so the `await` in
  `addUser`, `updateUser` and `deleteUser` does not wait for the mutation:
  the list request is issued while the mutation is still in flight. A
  description of the store as "refetch once the mutation has settled" does
  not match the code, and the model follows the code.
- `handleChange` calls `validateForm` in the same handler that queues the
  record update, so it validates the record as it was before the change;
  the `setErrors` of `validateForm` supersedes the single-field update queued
  before it. The effect on `formData` then validates the new record
  (`Form.FormDataEffect`).
- `useGet` ignores its `url` argument and always requests `/users`.

## Model

| member | source | states |
|---|---|---|
| Text.ToLower | client/src/components/UserList.tsx:48-51 | `toLowerCase` keeps the length and folds each character on its own |
| Text.ToLowerHasNoUpper | client/src/components/UserList.tsx:48-51 | a lowered text has no upper-case ASCII letter left |
| Text.ToLowerIdempotent | client/src/components/UserList.tsx:48-51 | lowering a lowered text changes nothing |
| Text.IncludesIsSubstring | client/src/components/UserList.tsx:52 | `includes` holds exactly when the needle occurs at some position of the text |
| Text.IncludesEmpty | client/src/components/UserList.tsx:52 | every text includes the empty string |
| Text.LessMeaning | client/src/components/UserList.tsx:69-70 | string `<` holds exactly for a proper prefix or a smaller character at the first difference |
| Text.LessIrreflexive | client/src/components/UserList.tsx:69-70 | no string is `<` itself |
| Text.LessTransitive | client/src/components/UserList.tsx:69-70 | string `<` is transitive |
| Text.LessTotal | client/src/components/UserList.tsx:69-70 | two different strings are ordered one way or the other |
| Text.LessAsymmetric | client/src/components/UserList.tsx:69-70 | `a < b` excludes `b < a` |
| UserList.FilterUsers | client/src/components/UserList.tsx:50-53 | a user is kept exactly when it is in the list and its lowered field includes the lowered text; the result is no longer than the list |
| UserList.FilterOutSearchUsers | client/src/components/UserList.tsx:47-54 | a null users list gives the empty list; otherwise the result is no longer than the list |
| UserList.FilterOutSearchUsersExact | client/src/components/UserList.tsx:47-53 | the search result is exactly the users whose lowered field contains the lowered text as a substring, and empty when users is null |
| UserList.FilterUsersConcat | client/src/components/UserList.tsx:50-53 | filtering distributes over concatenation, so the original order is kept |
| UserList.FilterUsersEmptyText | client/src/components/UserList.tsx:94-99 | with an empty search text the filter keeps every user in order, so the effect's two branches agree |
| UserList.NextDirection | client/src/components/UserList.tsx:57 | the new direction is descending exactly when the same column was sorted ascending |
| UserList.NextDirectionToggles | client/src/components/UserList.tsx:57 | a click on the sorted column flips the direction, a new column starts ascending, two clicks from ascending return to ascending |
| UserList.Compare | client/src/components/UserList.tsx:60-73 | the comparator returns -1, 0 or 1; it returns 0 when either value is missing or empty; for two values it returns 0 exactly when their lowered forms are equal |
| UserList.CompareMeaning | client/src/components/UserList.tsx:64-72 | for two present values ascending gives -1 exactly when the lowered first is `<` the lowered second and 1 for the converse; descending is the negation; swapping the arguments negates |
| UserList.CompareNotTransitiveWithMissing | client/src/components/UserList.tsx:64 | with an empty value the comparator is not transitive, so it is not an order |
| UserList.CompareTransitive | client/src/components/UserList.tsx:66-72 | for present values "compares at most 0" is transitive in either direction |
| UserList.Insert | client/src/components/UserList.tsx:60-73 | inserting adds exactly the one element to the multiset |
| UserList.SortUsers | client/src/components/UserList.tsx:60-73 | the sorted copy is a permutation of the list |
| UserList.InsertSorted | client/src/components/UserList.tsx:60-73 | inserting a present value into a sorted list with present values keeps it sorted by the comparator |
| UserList.SortUsersSorted | client/src/components/UserList.tsx:60-73 | when every value is present the result is sorted by the comparator |
| UserList.SortUsersOrdered | client/src/components/UserList.tsx:57-73 | when every value is present the result is a permutation ordered by lowered value, non-decreasing ascending and non-increasing descending |
| UserList.ListView.constructor | client/src/components/UserList.tsx:28-33 | initial cells: search by name, empty text, no modal, no selected user, empty list, sort by name ascending |
| UserList.ListView.HandleSearchFilter | client/src/components/UserList.tsx:36-40 | switching the search field stores it and clears the search text, and nothing else |
| UserList.ListView.HandleChange | client/src/components/UserList.tsx:42-45 | typing stores the raw search text and nothing else |
| UserList.ListView.HandleSort | client/src/components/UserList.tsx:56-76 | the config takes the clicked key and the toggled direction; the stored list is the sorted copy, a permutation of the old list, ordered by lowered value when every value is present |
| UserList.ListView.ResetSearchUsers | client/src/components/UserList.tsx:78-82 | the list becomes users (or empty when null), the field becomes name and the text empty |
| UserList.ListView.OpenModal | client/src/components/UserList.tsx:84-87 | stores the modal kind and the selected user |
| UserList.ListView.CloseModal | client/src/components/UserList.tsx:89-92 | clears the modal kind and the selected user |
| UserList.ListView.SearchEffect | client/src/components/UserList.tsx:94-101 | with users present the list is recomputed as the search result (the full list for an empty text), dropping any sort; with users null it is unchanged |
| UserForm.EmailShapeIsPattern | client/src/components/UserForm.tsx:36 | the executable shape test accepts exactly the strings in which some substring matches `\S+@\S+\.\S+` |
| UserForm.ValidateField | client/src/components/UserForm.tsx:30-40 | name: `Name is required` exactly when empty; email: `Email is required` when empty, else no error exactly when the pattern matches and `Email is invalid` otherwise; any other field: no error |
| UserForm.ErrorMapStep | client/src/components/UserForm.tsx:46-52 | one loop step keeps the error map exact for the entries visited so far |
| UserForm.CollectErrors | client/src/components/UserForm.tsx:42-56 | the map holds an entry for exactly the failing fields with their messages; the verdict is true exactly when no field fails, i.e. when the map is empty |
| UserForm.EntriesValidIffValidRecord | client/src/components/UserForm.tsx:42-56 | the form's entries all pass exactly when the name is non-empty and the email is non-empty and matches the pattern |
| UserForm.Form.constructor | client/src/components/UserForm.tsx:25-28 | initial cells: empty name and email, no errors, not valid, not touched |
| UserForm.Form.ValidateForm | client/src/components/UserForm.tsx:42-56 | stores the exact error map of the current record and returns true exactly when the record is valid |
| UserForm.Form.HandleChange | client/src/components/UserForm.tsx:58-71 | only the named field of the record changes; `hasTouched` becomes true, and no other method has it in its frame, so it never returns to false; errors and `isValid` describe the record as it was before the change |
| UserForm.Form.FormDataEffect | client/src/components/UserForm.tsx:91-94 | afterwards the error map and `isValid` agree with the current record |
| UserForm.Form.UserEffect | client/src/components/UserForm.tsx:85-89 | an edited user's name and email fill the form; with no user the record is unchanged |
| UserForm.Form.HandleSubmit | client/src/components/UserForm.tsx:73-83 | nothing when invalid; otherwise update with the record's id kept and the form's fields laid over it (id or `''`), or add the form's record, then close; when settled the submitted record passes validation |
| Api.RequestForShape | client/src/hooks/api.ts:29-36 | the URL is the base address followed by the path; the body is the payload for POST and PATCH and null for GET and DELETE |
| Api.StoredErrorIsFallbackForErrors | client/src/hooks/api.ts:37-41 | a stored error is never empty; for every `Error`, including every response without `ok`, it is `'Something went wrong'` and never the built message |
| Api.WrapperRequests | client/src/hooks/api.ts:51-89 | GET always requests `/users` whatever the hook's url; POST requests the url; PATCH and DELETE request url/id; only POST and PATCH carry the payload |
| Api.ItemPathRecoversId | client/src/hooks/api.ts:74-86 | PATCH and DELETE share the path url + `/` + id, from which the id is recovered |
| Api.Executor.constructor | client/src/hooks/api.ts:19-21 | initial cells: no data, not loading, error `''` |
| Api.Executor.Begin | client/src/hooks/api.ts:25-36 | sets loading and clears the error, leaves data, and issues the request for the call |
| Api.Executor.Settle | client/src/hooks/api.ts:37-44 | on success data is the parsed body; on failure data is kept and the error is the stored error; loading is false either way |
| Api.Executor.FetchData | client/src/hooks/api.ts:23-46 | a whole call: the request for the call is issued, loading ends false, success stores the body with a null error, failure keeps data and stores the error |
| UserContext.Store.constructor | client/src/context/UserContext.tsx:25-41 | four fresh executors; the mount effect has issued exactly one list request, which is in flight |
| UserContext.Store.Users | client/src/context/UserContext.tsx:72 | `users` is present exactly when the list executor has data, and is then that response's users |
| UserContext.Store.AddUser | client/src/context/UserContext.tsx:43-50 | issues POST `/users` with the record and then GET `/users`; both are in flight at once; `users` is unchanged |
| UserContext.Store.UpdateUser | client/src/context/UserContext.tsx:52-59 | issues PATCH `/users/{id}` with the record and then GET `/users`; both are in flight at once |
| UserContext.Store.DeleteUser | client/src/context/UserContext.tsx:61-68 | issues DELETE `/users/{id}` without a body and then GET `/users`; both are in flight at once |
| UserContext.Store.SettleList | client/src/context/UserContext.tsx:70-78 | a list response replaces `users` on success and keeps it on failure, which sets the exposed error; exposed loading ends false |
| UserContext.Store.SettleCreate | client/src/context/UserContext.tsx:27 | the create executor's result changes nothing exposed: `users`, `loading` and `error` are unchanged |
| UserContext.Store.SettleUpdate | client/src/context/UserContext.tsx:28 | the update executor's result changes nothing exposed |
| UserContext.Store.SettleDelete | client/src/context/UserContext.tsx:29 | the delete executor's result changes nothing exposed |
| UserContext.UseUsers | client/src/context/UserContext.tsx:84-90 | fails with `useUsers must be used within a UserProvider` exactly when no provider value is present, and otherwise returns it |

## Left out

- Rendering: JSX markup, CSS classes, ARIA attributes, the loader shown while loading, `client/src/components/UserItem.tsx` and `client/src/App.tsx`, which only wire components together.
- `client/src/components/DeleteModal.tsx`: modal UI. Its rule (delete only when the user has a non-empty id, then close) is a caller's rule; `Store.DeleteUser` accepts any id.
- Modal show/hide timers and the debounce hook: timing only. The debounced search text is an input of `ListView.SearchEffect`.
- `fetch`, the HTTP transport and `response.json()`: each call's end is an `Outcome` input. The JSON text of a body is not built: a request carries the record that would be serialized. The constant `Content-Type: application/json` header is not represented.
- A list response whose body is JSON `null`, or lacks the `users` field: the body type is taken as declared.
- React's scheduling: state cells are class fields and effects are methods called explicitly; when React runs them is not modelled.
- Interleaving of overlapping requests and microtask order across concurrent mutations: only the issue order within one call is kept. `Settle*` may be called in any order.
- `console.error` and the `catch` blocks of the store: the wrappers never throw synchronously, so those blocks are unreachable and the mutation methods have no error path.
- Unicode: `toLowerCase` is an ASCII case fold, and `<` compares Dafny characters (Unicode scalar values) where JavaScript compares UTF-16 code units; the two orders differ only for characters above U+FFFF.
- UserList.ListView.HandleSort: the sort algorithm of the JavaScript engine is not visible; the model uses a stable insertion sort. When some value is missing the comparator is not an order, and only the permutation property is promised for that case.
- UserForm.Form.HandleChange: requires the input name to be `name` or `email`, the only inputs the form renders; other names would add a new property to the record.
