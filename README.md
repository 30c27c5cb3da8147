# Member achievements store, modelled in Dafny

A model of two parts of a web client's centralized store:

- the `memberAchievements` module (`member_achievements.dfy`, module
  `MemberAchievements`): the flags `isLoading` and `isSaving`, the collections
  `memberAchievements` and `trackedAchievements`, the `trackedAchievementIds`
  getter, the six mutations and the four actions;
- the root store's own state (`root_store.dfy`, module `RootStore`): the
  `apiCallsInProgress` counter, its increase and decrease mutations and the
  `apiCallsInProgress` and `showLoadingIndicator` getters.

The module's state is the class `MemberAchievements.Store`. Its fields are the
four fields of the state record, and two logs:

- `toasts` records every toast raised, with its kind (success or error) and
  its exact message text;
- `requests` records every request sent to the two remote services.

Each action is one atomic step. It takes the awaited service result as a
parameter of type `Outcome<T>`: `Ok(value)`, a resolved value of the declared
type, or `Err`, a rejection. These are the two answers the model covers; the
service itself is not modelled.
The mutations are methods of the class, called directly. Array `map`,
`filter` and `find` are the recursive functions `TrackedAchievementIds`,
`WithoutId` and `FindByAchievementId`. The plain getters `isLoading`,
`isSaving`, `memberAchievements` and `trackedAchievements` return a field
unchanged, so they are the class's public fields. The module reads no field
of `MemberAchievement` or of the create payload `CreateTrackedAchievement`:
to it these types are opaque, and their fields in the model are placeholders.
Of `TrackedAchievement` the module reads `id`, `achievementId` and the
optional achievement's `name`, and the model gives it exactly those.

The counter is an `int`. It has no lower bound, so an unmatched decrease from
0 gives -1 (`RootStore.DecreaseFromInitial`).

The TODO comment in `deleteTrackedAchievement` says success is still shown
after an API error. The code as written does not do that: a rejected delete
skips both the removal and the success toast, and raises only the error
toast. The model follows the code. Whatever causes the reported behaviour is
outside the code modelled here.

## Model

| member | source | states |
|---|---|---|
| MemberAchievements.Store.constructor | src/store/modules/memberAchievements.ts:14-19 | initial state: both flags false, both collections empty (so no tracked ids), no toasts, no requests |
| MemberAchievements.TrackedAchievementIds | src/store/modules/memberAchievements.ts:26-27 | the getter has one entry per tracked record, and entry i is record i's achievement id |
| MemberAchievements.TrackedAchievementIdsAppend | src/store/modules/memberAchievements.ts:26-27 | after an append the getter gives the old ids followed by the new record's achievement id |
| MemberAchievements.Store.SetIsLoading | src/store/modules/memberAchievements.ts:31-33 | sets `isLoading` to the value; every other field unchanged |
| MemberAchievements.Store.SetIsSaving | src/store/modules/memberAchievements.ts:35-37 | sets `isSaving` to the value; every other field unchanged |
| MemberAchievements.Store.SetMemberAchievements | src/store/modules/memberAchievements.ts:39-41 | replaces `memberAchievements` by the value; every other field unchanged |
| MemberAchievements.Store.SetTrackedAchievements | src/store/modules/memberAchievements.ts:43-45 | replaces `trackedAchievements` by the value; every other field unchanged |
| MemberAchievements.Store.AddTrackedAchievement | src/store/modules/memberAchievements.ts:47-49 | the list grows by exactly one, the value is last, the earlier records keep their order; every other field unchanged |
| MemberAchievements.WithoutId | src/store/modules/memberAchievements.ts:51-53 | the filtered list is no longer than the input, holds no record with the removed id, and holds exactly the input's records with another id |
| MemberAchievements.Store.RemoveTrackedAchievement | src/store/modules/memberAchievements.ts:51-53 | the list becomes the filtered list, with no record of the removed id left; every other field unchanged |
| MemberAchievements.WithoutAbsentId | src/store/modules/memberAchievements.ts:51-53 | removing an id no record has leaves the list as it was |
| MemberAchievements.WithoutConcat | src/store/modules/memberAchievements.ts:51-53 | removal distributes over concatenation, so the kept records stay in their original order |
| MemberAchievements.WithoutIdempotent | src/store/modules/memberAchievements.ts:51-53 | removing the same id twice gives the same list as removing it once |
| MemberAchievements.WithoutUniqueId | src/store/modules/memberAchievements.ts:51-53 | when ids are unique, removing record i's id gives the list with exactly record i cut out |
| MemberAchievements.AddThenRemove | src/store/modules/memberAchievements.ts:47-53 | appending a record with an id not yet in the list and then removing that id gives back the original list |
| MemberAchievements.FindByAchievementId | src/store/modules/memberAchievements.ts:102-103 | no result exactly when no record has the achievement id; otherwise the result is a record with that achievement id and no earlier record has it |
| MemberAchievements.FindIffTracked | src/store/modules/memberAchievements.ts:102-103 | a record is found exactly when the achievement id is among the getter's tracked ids |
| MemberAchievements.Store.Send | src/store/modules/memberAchievements.ts:61-104 | stands for an awaited service call: appends the request to the request log; every other field unchanged |
| MemberAchievements.Store.AddSuccessToast | src/store/modules/memberAchievements.ts:90-107 | appends one success toast with the given message to the toast log; every other field unchanged |
| MemberAchievements.Store.AddErrorToast | src/store/modules/memberAchievements.ts:64-111 | appends one error toast with the given message to the toast log; every other field unchanged |
| MemberAchievements.StartedTrackingMessage | src/store/modules/memberAchievements.ts:90 | the create success message is the fixed prefix, then the achievement's name, or the text "undefined" when the achievement is absent, then a full stop |
| MemberAchievements.Store.LoadMemberAchievements | src/store/modules/memberAchievements.ts:57-68 | sends the fetch for the member; on Ok the collection is the fetched one and no toast is raised; on Err the collection is unchanged and exactly the error toast is appended; `isLoading` is false after, the tracked list and `isSaving` are untouched |
| MemberAchievements.Store.LoadTrackedAchievements | src/store/modules/memberAchievements.ts:70-81 | sends the fetch for the current user; on Ok the tracked list is the fetched one and no toast is raised; on Err the list is unchanged and exactly the error toast is appended; `isLoading` is false after, the member achievements and `isSaving` are untouched |
| MemberAchievements.Store.CreateTrackedAchievement | src/store/modules/memberAchievements.ts:83-96 | sends the create request; on Ok the tracked list is the old list followed by the response and the success toast names the response's achievement; on Err the list is unchanged and exactly the error toast is appended; `isSaving` is false after |
| MemberAchievements.Store.DeleteTrackedAchievement | src/store/modules/memberAchievements.ts:98-115 | with no record for the achievement, nothing is sent and the list and toasts are unchanged; otherwise a delete is sent for the first match's own id, on Ok that id is filtered out and the success toast appended, on Err the list is unchanged and only the error toast appended; `isSaving` is false after |
| MemberAchievements.DeleteRemovesExactlyOne | src/store/modules/memberAchievements.ts:98-115 | with unique ids, a successful delete cuts exactly one record, one for that achievement, out of the list and keeps all others in order |
| RootStore.Store.constructor | src/store/index.ts:23-25 | the counter starts at 0, so the loading indicator is initially off |
| RootStore.Store.ApiCallsInProgress | src/store/index.ts:27 | the getter returns the counter unchanged |
| RootStore.Store.ShowLoadingIndicator | src/store/index.ts:28 | the indicator is on if and only if the counter is greater than 0 |
| RootStore.Store.IncreaseApiCalls | src/store/index.ts:31-33 | the counter becomes old + 1; the indicator is then on exactly when the old counter was at least 0 |
| RootStore.Store.DecreaseApiCalls | src/store/index.ts:35-37 | the counter becomes old - 1 with no lower bound; the indicator is then on exactly when the old counter was at least 2 |
| RootStore.IncreaseThenDecrease | src/store/index.ts:31-37 | an increase followed by a decrease restores the counter and the indicator |
| RootStore.DecreaseThenIncrease | src/store/index.ts:31-37 | a decrease followed by an increase restores the counter and the indicator |
| RootStore.DecreaseFromInitial | src/store/index.ts:35-37 | decreasing a fresh store gives a counter of -1 and no indicator |

## Left out

- Framework wiring: plugin registration, the logger plugin, module registration and the `namespaced` flag carry no behaviour of their own.
- String-keyed `commit` dispatch: the actions call the mutation methods directly.
- The remote services: each awaited call is replaced by an `Outcome` parameter, and the request it would send is logged. What the services do, and why a call fails, is not modelled.
- Toast rendering: a toast is only an entry (kind, message) appended to the `toasts` log.
- Asynchronous interleaving: each action is one atomic step. The model does not show the flags being true while a call is in flight, nor two actions whose calls complete out of order.
- The other feature modules the root store registers are not part of this model.
- The record types from the models folder are not part of this model. `MemberAchievement` and `CreateTrackedAchievement` are opaque to the module; the ids they carry in the model are placeholders. `TrackedAchievement` carries the id, the achievement id and the optional achievement with its name.
- A service call that resolves with something other than a value of its declared type is not modelled. For example, if `create` resolved with `undefined`, the append would add `undefined` to the list and reading its `achievement` would then throw, so the list would grow and the error toast would be raised. `Outcome` has no answer that produces this.
- Number precision: the counter and all ids are JavaScript numbers (doubles), but the model uses unbounded integers. Past 2^53, adding 1 to the counter may leave it unchanged; the model does not capture this loss of precision.
- The reported success-after-failure defect of the delete action is not modelled, because the code modelled here does not produce it.
