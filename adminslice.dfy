/** The admin store slice: the user list, system statistics and the global
    topic list, updated by one plain reducer and the cases for the
    settled admin requests. */
module AdminStore {
  import opened Wrappers
  import opened Seqs
  import opened Text
  import opened Types

  datatype Role = Student | Admin
  datatype AccountStatus = Active | Inactive | Suspended

  datatype AdminUser = AdminUser(
    id: string,
    name: string,
    email: string,
    role: Role,
    createdAt: string,
    lastActive: string,
    status: AccountStatus)

  datatype SystemStats = SystemStats(
    totalUsers: int,
    activeUsers: int,
    totalTopics: int,
    totalSessions: int,
    avgSessionTime: real,
    completionRate: real)

  function SameUser(id: string): AdminUser -> bool { (u: AdminUser) => u.id == id }
  function SameTopic(id: string): Topic -> bool { (t: Topic) => t.id == id }
  function OtherTopic(id: string): Topic -> bool { (t: Topic) => t.id != id }

  /** `list[list.findIndex(x => x.id === v.id)] = v` when there is a match. */
  function ReplaceUser(users: seq<AdminUser>, u: AdminUser): seq<AdminUser>
  {
    ReplaceFirst(users, SameUser(u.id), u)
  }

  function ReplaceTopic(topics: seq<Topic>, t: Topic): seq<Topic>
  {
    ReplaceFirst(topics, SameTopic(t.id), t)
  }

  /** `adminTopics.filter(topic => topic.id !== id)`. */
  function WithoutTopic(topics: seq<Topic>, id: string): seq<Topic>
  {
    Filter(topics, OtherTopic(id))
  }

  /** The first entry satisfying `p`, when the entry at `k` is it. */
  lemma FirstMatch<T>(s: seq<T>, p: T -> bool, k: nat)
    requires k < |s| && p(s[k]) && forall j :: 0 <= j < k ==> !p(s[j])
    ensures FindIndex(s, p) == Some(k)
  {
    assert FindIndex(s, p).Some?;
  }

  /** Replacing by id keeps the length; without a match nothing changes,
      otherwise exactly the first entry with that id becomes the payload. */
  lemma ReplaceUserFacts(users: seq<AdminUser>, u: AdminUser, k: nat)
    ensures |ReplaceUser(users, u)| == |users|
    ensures (forall j :: 0 <= j < |users| ==> users[j].id != u.id) ==> ReplaceUser(users, u) == users
    ensures k < |users| && users[k].id == u.id && (forall j :: 0 <= j < k ==> users[j].id != u.id) ==>
              ReplaceUser(users, u) == users[k := u]
  {
    if k < |users| && users[k].id == u.id && (forall j :: 0 <= j < k ==> users[j].id != u.id) {
      FirstMatch(users, SameUser(u.id), k);
    }
  }

  lemma ReplaceTopicFacts(topics: seq<Topic>, t: Topic, k: nat)
    ensures |ReplaceTopic(topics, t)| == |topics|
    ensures (forall j :: 0 <= j < |topics| ==> topics[j].id != t.id) ==> ReplaceTopic(topics, t) == topics
    ensures k < |topics| && topics[k].id == t.id && (forall j :: 0 <= j < k ==> topics[j].id != t.id) ==>
              ReplaceTopic(topics, t) == topics[k := t]
  {
    if k < |topics| && topics[k].id == t.id && (forall j :: 0 <= j < k ==> topics[j].id != t.id) {
      FirstMatch(topics, SameTopic(t.id), k);
    }
  }

  /** Deleting by id removes every topic with that id and keeps all the
      others in their order. */
  lemma WithoutTopicFacts(topics: seq<Topic>, id: string)
    ensures forall k :: 0 <= k < |WithoutTopic(topics, id)| ==> WithoutTopic(topics, id)[k].id != id
    ensures forall k :: 0 <= k < |topics| && topics[k].id != id ==> topics[k] in WithoutTopic(topics, id)
    ensures Subsequence(WithoutTopic(topics, id), topics)
    ensures |WithoutTopic(topics, id)| == |topics| - Count(topics, SameTopic(id))
  {
    FilterMembers(topics, OtherTopic(id));
    FilterSubsequence(topics, OtherTopic(id));
    CountIsFilterLength(topics, OtherTopic(id));
    CountComplement(topics, SameTopic(id), OtherTopic(id));
  }

  lemma {:induction false} CountComplement<T>(s: seq<T>, p: T -> bool, q: T -> bool)
    requires forall x :: q(x) <==> !p(x)
    ensures Count(s, q) == |s| - Count(s, p)
    decreases |s|
  {
    if s != [] {
      CountComplement(s[1..], p, q);
    }
  }

  class AdminSlice {
    var users: seq<AdminUser>
    var systemStats: Option<SystemStats>
    var adminTopics: seq<Topic>
    var loading: bool
    var error: Option<string>

    /** `initialState`. */
    constructor()
      ensures users == [] && systemStats.None? && adminTopics == [] && !loading && error.None?
    {
      users := [];
      systemStats := None;
      adminTopics := [];
      loading := false;
      error := None;
    }

    /** `clearError`. */
    method ClearError()
      modifies this
      ensures error.None?
      ensures users == old(users) && systemStats == old(systemStats) && adminTopics == old(adminTopics)
      ensures loading == old(loading)
    {
      error := None;
    }

    /** `fetchUsers.pending`. */
    method FetchUsersPending()
      modifies this
      ensures loading && error.None?
      ensures users == old(users) && systemStats == old(systemStats) && adminTopics == old(adminTopics)
    {
      loading := true;
      error := None;
    }

    /** `fetchUsers.fulfilled`. */
    method FetchUsersFulfilled(payload: seq<AdminUser>)
      modifies this
      ensures !loading && users == payload
      ensures error == old(error) && systemStats == old(systemStats) && adminTopics == old(adminTopics)
    {
      loading := false;
      users := payload;
    }

    /** `fetchUsers.rejected`: the rejection message, or a default one. */
    method FetchUsersRejected(payload: Option<string>)
      modifies this
      ensures !loading && error == Some(MessageOr(payload, "Failed to fetch users"))
      ensures users == old(users) && systemStats == old(systemStats) && adminTopics == old(adminTopics)
    {
      loading := false;
      error := Some(MessageOr(payload, "Failed to fetch users"));
    }

    /** `updateUserStatus.fulfilled`. */
    method UpdateUserStatusFulfilled(payload: AdminUser)
      modifies this
      ensures users == ReplaceUser(old(users), payload) && |users| == |old(users)|
      ensures loading == old(loading) && error == old(error)
      ensures systemStats == old(systemStats) && adminTopics == old(adminTopics)
    {
      users := ReplaceFirst(users, SameUser(payload.id), payload);
    }

    /** `fetchSystemStats.fulfilled`. */
    method FetchSystemStatsFulfilled(payload: SystemStats)
      modifies this
      ensures systemStats == Some(payload)
      ensures users == old(users) && adminTopics == old(adminTopics)
      ensures loading == old(loading) && error == old(error)
    {
      systemStats := Some(payload);
    }

    /** `fetchAdminTopics.fulfilled`. */
    method FetchAdminTopicsFulfilled(payload: seq<Topic>)
      modifies this
      ensures adminTopics == payload
      ensures users == old(users) && systemStats == old(systemStats)
      ensures loading == old(loading) && error == old(error)
    {
      adminTopics := payload;
    }

    /** `createGlobalTopic.fulfilled`: one topic at the end. */
    method CreateGlobalTopicFulfilled(payload: Topic)
      modifies this
      ensures adminTopics == old(adminTopics) + [payload]
      ensures users == old(users) && systemStats == old(systemStats)
      ensures loading == old(loading) && error == old(error)
    {
      adminTopics := adminTopics + [payload];
    }

    /** `updateGlobalTopic.fulfilled`. */
    method UpdateGlobalTopicFulfilled(payload: Topic)
      modifies this
      ensures adminTopics == ReplaceTopic(old(adminTopics), payload) && |adminTopics| == |old(adminTopics)|
      ensures users == old(users) && systemStats == old(systemStats)
      ensures loading == old(loading) && error == old(error)
    {
      adminTopics := ReplaceFirst(adminTopics, SameTopic(payload.id), payload);
    }

    /** `deleteGlobalTopic.fulfilled`: the payload is the deleted id. */
    method DeleteGlobalTopicFulfilled(id: string)
      modifies this
      ensures adminTopics == WithoutTopic(old(adminTopics), id)
      ensures forall k :: 0 <= k < |adminTopics| ==> adminTopics[k].id != id
      ensures users == old(users) && systemStats == old(systemStats)
      ensures loading == old(loading) && error == old(error)
    {
      WithoutTopicFacts(adminTopics, id);
      adminTopics := Filter(adminTopics, OtherTopic(id));
    }

    /** `importCSVTopics.fulfilled`: the imported topics at the end, in order. */
    method ImportCsvTopicsFulfilled(imported: seq<Topic>)
      modifies this
      ensures adminTopics == old(adminTopics) + imported
      ensures users == old(users) && systemStats == old(systemStats)
      ensures loading == old(loading) && error == old(error)
    {
      adminTopics := adminTopics + imported;
    }
  }
}
