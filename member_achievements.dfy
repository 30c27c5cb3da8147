/** The `memberAchievements` store module: two flags, two collections, six
    mutations, the `trackedAchievementIds` getter and four actions.

    Each action awaits one call to a remote service. The awaited result is a
    parameter of the action (`Outcome`), and the request the action would send
    is appended to the `requests` log, so that "no call is made" can be said.
    The toast notifications the actions raise are appended to the `toasts` log.
 */
module MemberAchievements {

  datatype Option<T> = None | Some(value: T)

  /** What an awaited service call gives back: a value, or a rejection. */
  datatype Outcome<T> = Ok(value: T) | Err

  datatype Achievement = Achievement(name: string)

  /** A member's progress on one achievement. */
  datatype MemberAchievement = MemberAchievement(id: int, achievementId: int)

  /** A member tracking an achievement; `achievement` may be absent. */
  datatype TrackedAchievement = TrackedAchievement(id: int, achievementId: int, achievement: Option<Achievement>)

  /** The payload sent to create a tracked achievement. */
  datatype CreateTrackedAchievement = CreateTrackedAchievement(achievementId: int)

  /** A request issued to one of the two remote services. */
  datatype ServiceRequest =
    | GetByMemberId(memberId: int)
    | GetForCurrentUser
    | Create(data: CreateTrackedAchievement)
    | Delete(trackedId: int)

  datatype ToastKind = SuccessToast | ErrorToast

  datatype Toast = Toast(kind: ToastKind, message: string)

  const LoadMemberAchievementsFailed := "There was an error loading the member's achievements."
  const LoadTrackedAchievementsFailed := "There was an error loading your tracked achievements."
  const CreateTrackedAchievementFailed := "There was an error tracking the achievement. Try again."
  const DeleteTrackedAchievementSucceeded := "You have stopped tracking the achievement."
  const DeleteTrackedAchievementFailed := "There was an error removing the tracked achievement."

  const StartedTrackingPrefix := "You have started tracking "

  /** The success message of `createTrackedAchievement`: the fixed prefix, the
      tracked achievement's name (the text "undefined" when the achievement is
      absent) and a closing full stop. */
  function StartedTrackingMessage(ta: TrackedAchievement): (m: string)
    ensures |StartedTrackingPrefix| < |m|
    ensures m[..|StartedTrackingPrefix|] == StartedTrackingPrefix
    ensures m[|m| - 1] == '.'
    ensures ta.achievement.Some? ==> m[|StartedTrackingPrefix|..|m| - 1] == ta.achievement.value.name
    ensures ta.achievement.None? ==> m[|StartedTrackingPrefix|..|m| - 1] == "undefined"
  {
    var name := match ta.achievement
      case Some(a) => a.name
      case None => "undefined";
    StartedTrackingPrefix + name + "."
  }

  /** The `trackedAchievementIds` getter: the achievement id of every tracked
      record, in order. */
  function TrackedAchievementIds(tas: seq<TrackedAchievement>): (ids: seq<int>)
    ensures |ids| == |tas|
    ensures forall i :: 0 <= i < |tas| ==> ids[i] == tas[i].achievementId
  {
    if tas == [] then []
    else
      var rest := TrackedAchievementIds(tas[1..]);
      [tas[0].achievementId] + rest
  }

  /** The list `REMOVE_TRACKED_ACHIEVEMENT` keeps: every record whose own id is
      not `trackedId`, in the original order. */
  function WithoutId(tas: seq<TrackedAchievement>, trackedId: int): (r: seq<TrackedAchievement>)
    ensures |r| <= |tas|
    ensures forall i :: 0 <= i < |r| ==> r[i].id != trackedId
    ensures forall t :: t in r <==> t in tas && t.id != trackedId
  {
    if tas == [] then []
    else if tas[0].id != trackedId then [tas[0]] + WithoutId(tas[1..], trackedId)
    else WithoutId(tas[1..], trackedId)
  }

  /** The first tracked record whose achievement id is `achieveId`, as the
      array `find` of `deleteTrackedAchievement` looks it up. */
  function FindByAchievementId(tas: seq<TrackedAchievement>, achieveId: int): (r: Option<TrackedAchievement>)
    ensures r.None? <==> forall i :: 0 <= i < |tas| ==> tas[i].achievementId != achieveId
    ensures r.Some? ==>
      exists i :: 0 <= i < |tas| && tas[i] == r.value && r.value.achievementId == achieveId &&
        forall j :: 0 <= j < i ==> tas[j].achievementId != achieveId
  {
    if tas == [] then None
    else if tas[0].achievementId == achieveId then
      Some(tas[0])
    else
      var r := FindByAchievementId(tas[1..], achieveId);
      assert forall i :: 1 <= i < |tas| ==> tas[i] == tas[1..][i - 1];
      if r.Some? then
        var k :| 0 <= k < |tas[1..]| && tas[1..][k] == r.value && r.value.achievementId == achieveId &&
          forall j :: 0 <= j < k ==> tas[1..][j].achievementId != achieveId;
        assert tas[k + 1] == r.value;
        assert forall j :: 0 <= j < k + 1 ==> tas[j].achievementId != achieveId by {
          forall j | 0 <= j < k + 1 ensures tas[j].achievementId != achieveId {
            if j > 0 { assert tas[j] == tas[1..][j - 1]; }
          }
        }
        r
      else r
  }

  /** No two tracked records share an id. */
  predicate UniqueIds(tas: seq<TrackedAchievement>) {
    forall i, j :: 0 <= i < j < |tas| ==> tas[i].id != tas[j].id
  }

  /** Removing an id that no record has changes nothing. */
  lemma {:induction false} WithoutAbsentId(tas: seq<TrackedAchievement>, trackedId: int)
    requires forall i :: 0 <= i < |tas| ==> tas[i].id != trackedId
    ensures WithoutId(tas, trackedId) == tas
  {
    if tas != [] {
      assert forall i :: 0 <= i < |tas[1..]| ==> tas[1..][i] == tas[i + 1];
      WithoutAbsentId(tas[1..], trackedId);
      assert tas == [tas[0]] + tas[1..];
    }
  }

  /** Removal distributes over concatenation, so it keeps the relative order of
      the records it keeps. */
  lemma {:induction false} WithoutConcat(a: seq<TrackedAchievement>, b: seq<TrackedAchievement>, trackedId: int)
    ensures WithoutId(a + b, trackedId) == WithoutId(a, trackedId) + WithoutId(b, trackedId)
  {
    if a == [] {
      assert a + b == b;
    } else {
      assert (a + b)[0] == a[0];
      assert (a + b)[1..] == a[1..] + b;
      WithoutConcat(a[1..], b, trackedId);
    }
  }

  /** `REMOVE_TRACKED_ACHIEVEMENT` applied twice is the same as applied once. */
  lemma {:induction false} WithoutIdempotent(tas: seq<TrackedAchievement>, trackedId: int)
    ensures WithoutId(WithoutId(tas, trackedId), trackedId) == WithoutId(tas, trackedId)
  {
    WithoutAbsentId(WithoutId(tas, trackedId), trackedId);
  }

  /** When ids are unique, removing the id of the record at `i` drops exactly
      that record and keeps all others in order. */
  lemma {:induction false} WithoutUniqueId(tas: seq<TrackedAchievement>, i: int)
    requires UniqueIds(tas)
    requires 0 <= i < |tas|
    ensures WithoutId(tas, tas[i].id) == tas[..i] + tas[i + 1..]
  {
    var k, pre, post := tas[i].id, tas[..i], tas[i + 1..];
    assert tas == pre + ([tas[i]] + post);
    WithoutConcat(pre, [tas[i]] + post, k);
    WithoutConcat([tas[i]], post, k);
    forall j | 0 <= j < |pre| ensures pre[j].id != k {
      assert pre[j] == tas[j];
    }
    WithoutAbsentId(pre, k);
    forall j | 0 <= j < |post| ensures post[j].id != k {
      assert post[j] == tas[i + 1 + j];
    }
    WithoutAbsentId(post, k);
    assert WithoutId([tas[i]], k) == [] by {
      assert [tas[i]][1..] == [];
    }
  }

  /** `ADD_TRACKED_ACHIEVEMENT` followed by `REMOVE_TRACKED_ACHIEVEMENT` of the
      added record's id, when that id was not yet in use, gives back the list. */
  lemma {:induction false} AddThenRemove(tas: seq<TrackedAchievement>, t: TrackedAchievement)
    requires forall i :: 0 <= i < |tas| ==> tas[i].id != t.id
    ensures WithoutId(tas + [t], t.id) == tas
  {
    WithoutConcat(tas, [t], t.id);
    WithoutAbsentId(tas, t.id);
    assert WithoutId([t], t.id) == [] by {
      assert [t][1..] == [];
    }
  }

  /** The getter after an append: the new record's achievement id comes last. */
  lemma TrackedAchievementIdsAppend(tas: seq<TrackedAchievement>, t: TrackedAchievement)
    ensures TrackedAchievementIds(tas + [t]) == TrackedAchievementIds(tas) + [t.achievementId]
  {
  }

  /** `deleteTrackedAchievement` finds a record exactly when the getter lists
      the achievement id. */
  lemma FindIffTracked(tas: seq<TrackedAchievement>, achieveId: int)
    ensures FindByAchievementId(tas, achieveId).Some? <==> achieveId in TrackedAchievementIds(tas)
  {
  }

  /** The state slice of the module together with the logs of the requests it
      sends and the toasts it raises. */
  class Store {
    var isLoading: bool
    var isSaving: bool
    var memberAchievements: seq<MemberAchievement>
    var trackedAchievements: seq<TrackedAchievement>
    var toasts: seq<Toast>
    var requests: seq<ServiceRequest>

    /** The initial state: both flags down, both collections empty. */
    constructor ()
      ensures !isLoading && !isSaving
      ensures memberAchievements == [] && trackedAchievements == []
      ensures toasts == [] && requests == []
      ensures TrackedAchievementIds(trackedAchievements) == []
    {
      isLoading := false;
      isSaving := false;
      memberAchievements := [];
      trackedAchievements := [];
      toasts := [];
      requests := [];
    }

    // Mutations

    method SetIsLoading(value: bool)
      modifies this
      ensures isLoading == value
      ensures isSaving == old(isSaving)
      ensures memberAchievements == old(memberAchievements)
      ensures trackedAchievements == old(trackedAchievements)
      ensures toasts == old(toasts) && requests == old(requests)
    {
      isLoading := value;
    }

    method SetIsSaving(value: bool)
      modifies this
      ensures isSaving == value
      ensures isLoading == old(isLoading)
      ensures memberAchievements == old(memberAchievements)
      ensures trackedAchievements == old(trackedAchievements)
      ensures toasts == old(toasts) && requests == old(requests)
    {
      isSaving := value;
    }

    method SetMemberAchievements(value: seq<MemberAchievement>)
      modifies this
      ensures memberAchievements == value
      ensures isLoading == old(isLoading) && isSaving == old(isSaving)
      ensures trackedAchievements == old(trackedAchievements)
      ensures toasts == old(toasts) && requests == old(requests)
    {
      memberAchievements := value;
    }

    method SetTrackedAchievements(value: seq<TrackedAchievement>)
      modifies this
      ensures trackedAchievements == value
      ensures isLoading == old(isLoading) && isSaving == old(isSaving)
      ensures memberAchievements == old(memberAchievements)
      ensures toasts == old(toasts) && requests == old(requests)
    {
      trackedAchievements := value;
    }

    method AddTrackedAchievement(value: TrackedAchievement)
      modifies this
      ensures trackedAchievements == old(trackedAchievements) + [value]
      ensures |trackedAchievements| == |old(trackedAchievements)| + 1
      ensures trackedAchievements[|trackedAchievements| - 1] == value
      ensures trackedAchievements[..|old(trackedAchievements)|] == old(trackedAchievements)
      ensures isLoading == old(isLoading) && isSaving == old(isSaving)
      ensures memberAchievements == old(memberAchievements)
      ensures toasts == old(toasts) && requests == old(requests)
    {
      trackedAchievements := trackedAchievements + [value];
    }

    method RemoveTrackedAchievement(trackedId: int)
      modifies this
      ensures trackedAchievements == WithoutId(old(trackedAchievements), trackedId)
      ensures forall i :: 0 <= i < |trackedAchievements| ==> trackedAchievements[i].id != trackedId
      ensures isLoading == old(isLoading) && isSaving == old(isSaving)
      ensures memberAchievements == old(memberAchievements)
      ensures toasts == old(toasts) && requests == old(requests)
    {
      trackedAchievements := WithoutId(trackedAchievements, trackedId);
    }

    // Toast notifications

    method AddSuccessToast(message: string)
      modifies this
      ensures toasts == old(toasts) + [Toast(SuccessToast, message)]
      ensures isLoading == old(isLoading) && isSaving == old(isSaving)
      ensures memberAchievements == old(memberAchievements)
      ensures trackedAchievements == old(trackedAchievements)
      ensures requests == old(requests)
    {
      toasts := toasts + [Toast(SuccessToast, message)];
    }

    method AddErrorToast(message: string)
      modifies this
      ensures toasts == old(toasts) + [Toast(ErrorToast, message)]
      ensures isLoading == old(isLoading) && isSaving == old(isSaving)
      ensures memberAchievements == old(memberAchievements)
      ensures trackedAchievements == old(trackedAchievements)
      ensures requests == old(requests)
    {
      toasts := toasts + [Toast(ErrorToast, message)];
    }

    /** Sends `request`; its awaited result is the caller's parameter. */
    method Send(request: ServiceRequest)
      modifies this
      ensures requests == old(requests) + [request]
      ensures isLoading == old(isLoading) && isSaving == old(isSaving)
      ensures memberAchievements == old(memberAchievements)
      ensures trackedAchievements == old(trackedAchievements)
      ensures toasts == old(toasts)
    {
      requests := requests + [request];
    }

    // Actions

    /** Fetches a member's achievements; `fetched` is what the fetch gives. */
    method LoadMemberAchievements(memberId: int, fetched: Outcome<seq<MemberAchievement>>)
      modifies this
      ensures !isLoading && isSaving == old(isSaving)
      ensures requests == old(requests) + [GetByMemberId(memberId)]
      ensures fetched.Ok? ==> memberAchievements == fetched.value && toasts == old(toasts)
      ensures fetched.Err? ==>
        memberAchievements == old(memberAchievements) &&
        toasts == old(toasts) + [Toast(ErrorToast, LoadMemberAchievementsFailed)]
      ensures trackedAchievements == old(trackedAchievements)
    {
      SetIsLoading(true);
      Send(GetByMemberId(memberId));
      match fetched {
        case Ok(achievements) => SetMemberAchievements(achievements);
        case Err => AddErrorToast(LoadMemberAchievementsFailed);
      }
      SetIsLoading(false);
    }

    /** Fetches the current user's tracked achievements. */
    method LoadTrackedAchievements(fetched: Outcome<seq<TrackedAchievement>>)
      modifies this
      ensures !isLoading && isSaving == old(isSaving)
      ensures requests == old(requests) + [GetForCurrentUser]
      ensures fetched.Ok? ==> trackedAchievements == fetched.value && toasts == old(toasts)
      ensures fetched.Err? ==>
        trackedAchievements == old(trackedAchievements) &&
        toasts == old(toasts) + [Toast(ErrorToast, LoadTrackedAchievementsFailed)]
      ensures memberAchievements == old(memberAchievements)
    {
      SetIsLoading(true);
      Send(GetForCurrentUser);
      match fetched {
        case Ok(achievements) => SetTrackedAchievements(achievements);
        case Err => AddErrorToast(LoadTrackedAchievementsFailed);
      }
      SetIsLoading(false);
    }

    /** Creates a tracked achievement; `response` is the created record. */
    method CreateTrackedAchievement(data: CreateTrackedAchievement, response: Outcome<TrackedAchievement>)
      modifies this
      ensures !isSaving && isLoading == old(isLoading)
      ensures requests == old(requests) + [Create(data)]
      ensures response.Ok? ==>
        trackedAchievements == old(trackedAchievements) + [response.value] &&
        toasts == old(toasts) + [Toast(SuccessToast, StartedTrackingMessage(response.value))]
      ensures response.Err? ==>
        trackedAchievements == old(trackedAchievements) &&
        toasts == old(toasts) + [Toast(ErrorToast, CreateTrackedAchievementFailed)]
      ensures memberAchievements == old(memberAchievements)
    {
      SetIsSaving(true);
      Send(Create(data));
      match response {
        case Ok(created) =>
          AddTrackedAchievement(created);
          AddSuccessToast(StartedTrackingMessage(created));
        case Err =>
          AddErrorToast(CreateTrackedAchievementFailed);
      }
      SetIsSaving(false);
    }

    /** Stops tracking the achievement `achieveId`: deletes, by its own id, the
        first tracked record for that achievement; `deleted` is what the delete
        request gives. Without such a record nothing is sent and nothing but
        the saving flag changes. */
    method DeleteTrackedAchievement(achieveId: int, deleted: Outcome<()>)
      modifies this
      ensures !isSaving && isLoading == old(isLoading)
      ensures memberAchievements == old(memberAchievements)
      ensures FindByAchievementId(old(trackedAchievements), achieveId).None? ==>
        trackedAchievements == old(trackedAchievements) &&
        toasts == old(toasts) && requests == old(requests)
      ensures FindByAchievementId(old(trackedAchievements), achieveId).Some? ==>
        var ta := FindByAchievementId(old(trackedAchievements), achieveId).value;
        ta.achievementId == achieveId &&
        requests == old(requests) + [Delete(ta.id)] &&
        (deleted.Ok? ==>
          trackedAchievements == WithoutId(old(trackedAchievements), ta.id) &&
          toasts == old(toasts) + [Toast(SuccessToast, DeleteTrackedAchievementSucceeded)]) &&
        (deleted.Err? ==>
          trackedAchievements == old(trackedAchievements) &&
          toasts == old(toasts) + [Toast(ErrorToast, DeleteTrackedAchievementFailed)])
    {
      SetIsSaving(true);
      var found := FindByAchievementId(trackedAchievements, achieveId);
      if found.Some? {
        var ta := found.value;
        Send(Delete(ta.id));
        match deleted {
          case Ok(_) =>
            RemoveTrackedAchievement(ta.id);
            AddSuccessToast(DeleteTrackedAchievementSucceeded);
          case Err =>
            AddErrorToast(DeleteTrackedAchievementFailed);
        }
      }
      SetIsSaving(false);
    }
  }

  /** With unique ids, a successful delete drops exactly the first record for
      the achievement and keeps every other record in order. */
  method DeleteRemovesExactlyOne(store: Store, achieveId: int)
    requires UniqueIds(store.trackedAchievements)
    requires FindByAchievementId(store.trackedAchievements, achieveId).Some?
    modifies store
    ensures exists i :: 0 <= i < |old(store.trackedAchievements)| &&
                        old(store.trackedAchievements)[i].achievementId == achieveId &&
                        store.trackedAchievements == old(store.trackedAchievements)[..i] + old(store.trackedAchievements)[i + 1..]
  {
    ghost var before := store.trackedAchievements;
    ghost var ta := FindByAchievementId(before, achieveId).value;
    store.DeleteTrackedAchievement(achieveId, Ok(()));
    ghost var i :| 0 <= i < |before| && before[i] == ta;
    WithoutUniqueId(before, i);
  }
}
