/**
 * The MongoDB query catalog: database commands as JSON-like text, one builder per logical query and variant.
 * Every builder splices its arguments into fixed text with no escaping; the source
 * files end their lines with CR LF, so the line breaks inside the text are `NL`.
 */
module MongoQueries {
  import opened Text

  const FindFriendsDocument0: seq<string> :=
    [
      "",
      "        {",
      "            find: 'edges',",
      "            filter: { from: '"]
  const FindFriendsDocument1: seq<string> :=
    [
      "' },",
      "            projection: { to: 1, _id: 0 }",
      "        }"]

  /** A `find` command on `edges` filtered on `from`, projecting `to`. */
  function BuildFindFriendsDocumentQuery(userId: string): string {
    Lines(FindFriendsDocument0) + userId + Lines(FindFriendsDocument1)
  }

  const FindFriendsGraph0: seq<string> :=
    [
      "",
      "        {",
      "            aggregate: 'edges',",
      "            pipeline: [",
      "                { $match: { from: '"]
  const FindFriendsGraph1: seq<string> :=
    [
      "' } },",
      "                {",
      "                    $graphLookup: {",
      "                        from: 'edges',",
      "                        startWith: '$to',",
      "                        connectFromField: 'to',",
      "                        connectToField: 'from',",
      "                        as: 'friends',",
      "                        maxDepth: 0",
      "                    }",
      "                },",
      "                { $unwind: '$friends' },",
      "                { $project: { _id: 0, to: '$friends.to' } }",
      "            ],",
      "            cursor: { batchSize: 10000 }",
      "        }"]

  /** An `aggregate` on `edges`: `$match` on `from`, then a `$graphLookup` of depth 0. */
  function BuildFindFriendsGraphQuery(userId: string): string {
    Lines(FindFriendsGraph0) + userId + Lines(FindFriendsGraph1)
  }

  const FindFriendsOfFriendsDocument0: seq<string> :=
    [
      "",
      "        {",
      "            aggregate: 'edges',",
      "            pipeline: [",
      "                { $match: { from: '"]
  const FindFriendsOfFriendsDocument1: seq<string> :=
    [
      "' } },",
      "                {",
      "                    $lookup: {",
      "                        from: 'edges',",
      "                        localField: 'to',",
      "                        foreignField: 'from',",
      "                        as: 'friendsOfFriends'",
      "                    }",
      "                },",
      "                { $unwind: '$friendsOfFriends' },",
      "                { $project: { _id: 0, friendOfFriend: '$friendsOfFriends.to' } }",
      "            ],",
      "            cursor: { batchSize: 10000 }",
      "        }"]

  /** An `aggregate` on `edges`: `$match` on `from`, then a `$lookup` of the next hop. */
  function BuildFindFriendsOfFriendsDocumentQuery(userId: string): string {
    Lines(FindFriendsOfFriendsDocument0) + userId + Lines(FindFriendsOfFriendsDocument1)
  }

  const FindFriendsOfFriendsGraph0: seq<string> :=
    [
      "",
      "        {",
      "            aggregate: 'edges',",
      "            pipeline: [",
      "                { $match: { from: '"]
  const FindFriendsOfFriendsGraph1: seq<string> :=
    [
      "' } },",
      "                {",
      "                    $graphLookup: {",
      "                        from: 'edges',",
      "                        startWith: '$to',",
      "                        connectFromField: 'to',",
      "                        connectToField: 'from',",
      "                        as: 'friendsOfFriends',",
      "                        maxDepth: 1,",
      "                        depthField: 'depth'",
      "                    }",
      "                },",
      "                { $unwind: '$friendsOfFriends' },",
      "                { $project: { _id: 0, friendOfFriend: '$friendsOfFriends.to' } }",
      "            ],",
      "            cursor: { batchSize: 10000 }",
      "        }"]

  /** An `aggregate` on `edges`: `$match` on `from`, then a `$graphLookup` of depth 1. */
  function BuildFindFriendsOfFriendsGraphQuery(userId: string): string {
    Lines(FindFriendsOfFriendsGraph0) + userId + Lines(FindFriendsOfFriendsGraph1)
  }

  const FindMutualFriendsDocument0: seq<string> :=
    [
      "",
      "        {",
      "            aggregate: 'edges',",
      "            pipeline: [",
      "                { $match: { $or: [ { from: '"]
  const FindMutualFriendsDocument1: seq<string> :=
    ["' }, { from: '"]
  const FindMutualFriendsDocument2: seq<string> :=
    [
      "' } ] } },",
      "                { $group: { _id: '$to', count: { $sum: 1 } } },",
      "                { $match: { count: 2 } },",
      "                { $project: { _id: 0, mutualFriend: '$_id' } }",
      "            ],",
      "            cursor: { batchSize: 10000 }",
      "        }"]

  /** An `aggregate` matching edges from either user inside one `$or`, grouped by `to`, kept when counted twice. */
  function BuildFindMutualFriendsDocumentQuery(user1Id: string, user2Id: string): string {
    Lines(FindMutualFriendsDocument0) + user1Id + Lines(FindMutualFriendsDocument1) + user2Id + Lines(FindMutualFriendsDocument2)
  }

  const FindMutualFriendsGraph0: seq<string> :=
    [
      "",
      "        {",
      "            aggregate: 'edges',",
      "            pipeline: [",
      "                { $match: { from: '"]
  const FindMutualFriendsGraph1: seq<string> :=
    [
      "' } },",
      "                {",
      "                    $graphLookup: {",
      "                        from: 'edges',",
      "                        startWith: '$to',",
      "                        connectFromField: 'to',",
      "                        connectToField: 'from',",
      "                        as: 'friends',",
      "                        maxDepth: 0",
      "                    }",
      "                },",
      "                { $unwind: '$friends' },",
      "                { $match: { 'friends.to': '"]
  const FindMutualFriendsGraph2: seq<string> :=
    [
      "' } },",
      "                { $project: { _id: 0, mutualFriend: '$friends.to' } }",
      "            ],",
      "            cursor: { batchSize: 10000 }",
      "        }"]

  /** An `aggregate`: `$match` on the first user, `$graphLookup`, then `$match` of `friends.to` on the second. */
  function BuildFindMutualFriendsGraphQuery(user1Id: string, user2Id: string): string {
    Lines(FindMutualFriendsGraph0) + user1Id + Lines(FindMutualFriendsGraph1) + user2Id + Lines(FindMutualFriendsGraph2)
  }

  const CountFriendsDocument0: seq<string> :=
    [
      "",
      "        {",
      "            count: 'edges',",
      "            query: { from: '"]
  const CountFriendsDocument1: seq<string> :=
    [
      "' }",
      "        }"]

  /** A `count` command on `edges` with the query `from == userId`. */
  function BuildCountFriendsDocumentQuery(userId: string): string {
    Lines(CountFriendsDocument0) + userId + Lines(CountFriendsDocument1)
  }

  const CountFriendsGraph0: seq<string> :=
    [
      "",
      "        {",
      "            aggregate: 'edges',",
      "            pipeline: [",
      "                { $match: { from: '"]
  const CountFriendsGraph1: seq<string> :=
    [
      "' } },",
      "                {",
      "                    $graphLookup: {",
      "                        from: 'edges',",
      "                        startWith: '$to',",
      "                        connectFromField: 'to',",
      "                        connectToField: 'from',",
      "                        as: 'friends',",
      "                        maxDepth: 0",
      "                    }",
      "                },",
      "                { $count: 'count' }",
      "            ],",
      "            cursor: { batchSize: 10000 }",
      "        }"]

  /** An `aggregate`: `$match` on `from`, `$graphLookup` of depth 0, then `$count`. */
  function BuildCountFriendsGraphQuery(userId: string): string {
    Lines(CountFriendsGraph0) + userId + Lines(CountFriendsGraph1)
  }

  const FindUsersWithMoreThanNFriendsDocument0: seq<string> :=
    [
      "",
      "        {",
      "            aggregate: 'edges',",
      "            pipeline: [",
      "                { $group: { _id: '$from', count: { $sum: 1 } } },",
      "                { $match: { count: { $gt: "]
  const FindUsersWithMoreThanNFriendsDocument1: seq<string> :=
    [
      " } } },",
      "                { $project: { _id: 0, userId: '$_id' } }",
      "            ],",
      "            cursor: { batchSize: 10000 }",
      "        }"]

  /** An `aggregate` grouping edges by `from` and keeping groups whose count is `$gt: n`. */
  function BuildFindUsersWithMoreThanNFriendsDocumentQuery(n: int): string {
    Lines(FindUsersWithMoreThanNFriendsDocument0) + IntToString(n) + Lines(FindUsersWithMoreThanNFriendsDocument1)
  }

  const FindUsersWithMoreThanNFriendsGraph0: seq<string> :=
    [
      "",
      "        {",
      "            aggregate: 'edges',",
      "            pipeline: [",
      "                {",
      "                    $graphLookup: {",
      "                        from: 'edges',",
      "                        startWith: '$from',",
      "                        connectFromField: 'from',",
      "                        connectToField: 'to',",
      "                        as: 'friends',",
      "                        maxDepth: 0",
      "                    }",
      "                },",
      "                { $group: { _id: '$from', count: { $sum: 1 } } },",
      "                { $match: { count: { $gt: "]
  const FindUsersWithMoreThanNFriendsGraph1: seq<string> :=
    [
      " } } },",
      "                { $project: { _id: 0, userId: '$_id' } }",
      "            ],",
      "            cursor: { batchSize: 10000 }",
      "        }"]

  /** As the document variant, after a `$graphLookup` from `from` to `to`. */
  function BuildFindUsersWithMoreThanNFriendsGraphQuery(n: int): string {
    Lines(FindUsersWithMoreThanNFriendsGraph0) + IntToString(n) + Lines(FindUsersWithMoreThanNFriendsGraph1)
  }

  const FindShortestPathDocument0: seq<string> :=
    [
      "",
      "        {",
      "            aggregate: 'edges',",
      "            pipeline: [",
      "                { $match: { from: '"]
  const FindShortestPathDocument1: seq<string> :=
    [
      "' } },",
      "                {",
      "                    $graphLookup: {",
      "                        from: 'edges',",
      "                        startWith: '$to',",
      "                        connectFromField: 'to',",
      "                        connectToField: 'from',",
      "                        as: 'path',",
      "                        depthField: 'depth',",
      "                        restrictSearchWithMatch: { to: '"]
  const FindShortestPathDocument2: seq<string> :=
    [
      "' }",
      "                    }",
      "                },",
      "                { $unwind: '$path' },",
      "                { $match: { 'path.to': '"]
  const FindShortestPathDocument3: seq<string> :=
    [
      "' } },",
      "                { $project: { _id: 0, path: '$path' } }",
      "            ],",
      "            cursor: { batchSize: 10000 }",
      "        }"]

  /** An `aggregate`: `$match` on the start user, a `$graphLookup` restricted to the end user, then `$match` on `path.to`. */
  function BuildFindShortestPathDocumentQuery(startUserId: string, endUserId: string): string {
    Lines(FindShortestPathDocument0) + startUserId + Lines(FindShortestPathDocument1) + endUserId + Lines(FindShortestPathDocument2) + endUserId + Lines(FindShortestPathDocument3)
  }

  const FindShortestPathGraph0: seq<string> :=
    [
      "",
      "        {",
      "            aggregate: 'edges',",
      "            pipeline: [",
      "                { $match: { from: '"]
  const FindShortestPathGraph1: seq<string> :=
    [
      "' } },",
      "                {",
      "                    $graphLookup: {",
      "                        from: 'edges',",
      "                        startWith: '$to',",
      "                        connectFromField: 'to',",
      "                        connectToField: 'from',",
      "                        as: 'path',",
      "                        depthField: 'depth',",
      "                        restrictSearchWithMatch: { to: '"]
  const FindShortestPathGraph2: seq<string> :=
    [
      "' }",
      "                    }",
      "                },",
      "                { $unwind: '$path' },",
      "                { $match: { 'path.to': '"]
  const FindShortestPathGraph3: seq<string> :=
    [
      "' } },",
      "                { $project: { _id: 0, path: '$path' } }",
      "            ],",
      "            cursor: { batchSize: 10000 }",
      "        }"]

  /** The same text as the document variant. */
  function BuildFindShortestPathGraphQuery(startUserId: string, endUserId: string): string {
    Lines(FindShortestPathGraph0) + startUserId + Lines(FindShortestPathGraph1) + endUserId + Lines(FindShortestPathGraph2) + endUserId + Lines(FindShortestPathGraph3)
  }

  // ----- properties -----

  /**
   * The builders with one user id splice it raw between fixed texts, so distinct ids give
   * distinct query texts.
   */
  lemma SingleUserBuildersInjective(u1: string, u2: string)
    ensures BuildFindFriendsDocumentQuery(u1) == BuildFindFriendsDocumentQuery(u2) ==> u1 == u2
    ensures BuildFindFriendsGraphQuery(u1) == BuildFindFriendsGraphQuery(u2) ==> u1 == u2
    ensures BuildFindFriendsOfFriendsDocumentQuery(u1) == BuildFindFriendsOfFriendsDocumentQuery(u2) ==> u1 == u2
    ensures BuildFindFriendsOfFriendsGraphQuery(u1) == BuildFindFriendsOfFriendsGraphQuery(u2) ==> u1 == u2
    ensures BuildCountFriendsDocumentQuery(u1) == BuildCountFriendsDocumentQuery(u2) ==> u1 == u2
    ensures BuildCountFriendsGraphQuery(u1) == BuildCountFriendsGraphQuery(u2) ==> u1 == u2
  {
    if BuildFindFriendsDocumentQuery(u1) == BuildFindFriendsDocumentQuery(u2) {
      Cancel(Lines(FindFriendsDocument0), u1, u2, Lines(FindFriendsDocument1));
    }
    if BuildFindFriendsGraphQuery(u1) == BuildFindFriendsGraphQuery(u2) {
      Cancel(Lines(FindFriendsGraph0), u1, u2, Lines(FindFriendsGraph1));
    }
    if BuildFindFriendsOfFriendsDocumentQuery(u1) == BuildFindFriendsOfFriendsDocumentQuery(u2) {
      Cancel(Lines(FindFriendsOfFriendsDocument0), u1, u2, Lines(FindFriendsOfFriendsDocument1));
    }
    if BuildFindFriendsOfFriendsGraphQuery(u1) == BuildFindFriendsOfFriendsGraphQuery(u2) {
      Cancel(Lines(FindFriendsOfFriendsGraph0), u1, u2, Lines(FindFriendsOfFriendsGraph1));
    }
    if BuildCountFriendsDocumentQuery(u1) == BuildCountFriendsDocumentQuery(u2) {
      Cancel(Lines(CountFriendsDocument0), u1, u2, Lines(CountFriendsDocument1));
    }
    if BuildCountFriendsGraphQuery(u1) == BuildCountFriendsGraphQuery(u2) {
      Cancel(Lines(CountFriendsGraph0), u1, u2, Lines(CountFriendsGraph1));
    }
  }

  /** The friends filter is `from: '<userId>'`, with the id written verbatim. */
  lemma FindFriendsDocumentFilter(userId: string)
    ensures Contains(BuildFindFriendsDocumentQuery(userId), "filter: { from: '" + userId + "' }")
  {
    Template1(FindFriendsDocument0, userId, FindFriendsDocument1, "filter: { from: '", "' }");
  }

  /** Both users of the document mutual-friends query sit in one `$or`, the first user first. */
  lemma MutualFriendsDocumentOr(user1Id: string, user2Id: string)
    ensures Contains(BuildFindMutualFriendsDocumentQuery(user1Id, user2Id),
                     "$or: [ { from: '" + user1Id + "' }, { from: '" + user2Id + "' } ]")
  {
    Template2Both(FindMutualFriendsDocument0, user1Id, FindMutualFriendsDocument1, user2Id, FindMutualFriendsDocument2,
                  "$or: [ { from: '", "' } ]");
  }

  /** The graph mutual-friends query matches `from` on the first user... */
  lemma MutualFriendsGraphFirstUser(user1Id: string, user2Id: string)
    ensures Contains(BuildFindMutualFriendsGraphQuery(user1Id, user2Id), "{ $match: { from: '" + user1Id + "' } }")
  {
    Template2First(FindMutualFriendsGraph0, user1Id, FindMutualFriendsGraph1, user2Id, FindMutualFriendsGraph2,
                   "{ $match: { from: '", "' } }");
  }

  /** ... and `friends.to` on the second. */
  lemma MutualFriendsGraphSecondUser(user1Id: string, user2Id: string)
    ensures Contains(BuildFindMutualFriendsGraphQuery(user1Id, user2Id), "{ $match: { 'friends.to': '" + user2Id + "' } }")
  {
    Template2Second(FindMutualFriendsGraph0, user1Id, FindMutualFriendsGraph1, user2Id, FindMutualFriendsGraph2,
                    "{ $match: { 'friends.to': '", "' } }");
  }

  /**
   * The document count query is a `count` command on `edges`: the command document opens
   * with `count` as its first key, which is what names a MongoDB command...
   */
  lemma CountFriendsDocumentCommand(userId: string)
    ensures Contains(BuildCountFriendsDocumentQuery(userId), "count: 'edges',")
    ensures StartsWith(BuildCountFriendsDocumentQuery(userId), Lines(["", "        {", "            count: 'edges',"]))
  {
    JoinPrefix(CountFriendsDocument0, NL, 3);
    assert CountFriendsDocument0[..3] == ["", "        {", "            count: 'edges',"];
    StartsWithAppend(Lines(CountFriendsDocument0), Lines(["", "        {", "            count: 'edges',"]), userId);
    StartsWithAppend(Lines(CountFriendsDocument0) + userId, Lines(["", "        {", "            count: 'edges',"]), Lines(CountFriendsDocument1));
    LinesHaveLineEnd(CountFriendsDocument0, 2, "count: 'edges',");
    ContainsLeft(Lines(CountFriendsDocument0), userId, "count: 'edges',");
    ContainsLeft(Lines(CountFriendsDocument0) + userId, Lines(CountFriendsDocument1), "count: 'edges',");
  }

  /** ... whose query is `from: '<userId>'`... */
  lemma CountFriendsDocumentFilter(userId: string)
    ensures Contains(BuildCountFriendsDocumentQuery(userId), "query: { from: '" + userId + "' }")
  {
    Template1(CountFriendsDocument0, userId, CountFriendsDocument1, "query: { from: '", "' }");
  }

  /** ... while its graph counterpart is an `aggregate` on `edges`. */
  lemma CountFriendsGraphCommand(userId: string)
    ensures Contains(BuildCountFriendsGraphQuery(userId), "aggregate: 'edges',")
  {
    LinesHaveLineEnd(CountFriendsGraph0, 2, "aggregate: 'edges',");
    ContainsLeft(Lines(CountFriendsGraph0), userId, "aggregate: 'edges',");
    ContainsLeft(Lines(CountFriendsGraph0) + userId, Lines(CountFriendsGraph1), "aggregate: 'edges',");
  }

  /** The document "more than n" builder writes `n` in decimal as the bound of `$gt`. */
  lemma MoreThanNDocumentThreshold(n: int)
    ensures Contains(BuildFindUsersWithMoreThanNFriendsDocumentQuery(n), "{ $match: { count: { $gt: " + IntToString(n) + " } } }")
  {
    Template1(FindUsersWithMoreThanNFriendsDocument0, IntToString(n), FindUsersWithMoreThanNFriendsDocument1,
                   "{ $match: { count: { $gt: ", " } } }");
  }

  /** So does the graph "more than n" builder. */
  lemma MoreThanNGraphThreshold(n: int)
    ensures Contains(BuildFindUsersWithMoreThanNFriendsGraphQuery(n), "{ $match: { count: { $gt: " + IntToString(n) + " } } }")
  {
    Template1(FindUsersWithMoreThanNFriendsGraph0, IntToString(n), FindUsersWithMoreThanNFriendsGraph1,
                   "{ $match: { count: { $gt: ", " } } }");
  }

  /** The threshold can be read back from the text: distinct `n` give distinct queries. */
  lemma MoreThanNInjective(m: int, n: int)
    ensures BuildFindUsersWithMoreThanNFriendsDocumentQuery(m) == BuildFindUsersWithMoreThanNFriendsDocumentQuery(n) ==> m == n
    ensures BuildFindUsersWithMoreThanNFriendsGraphQuery(m) == BuildFindUsersWithMoreThanNFriendsGraphQuery(n) ==> m == n
  {
    if BuildFindUsersWithMoreThanNFriendsDocumentQuery(m) == BuildFindUsersWithMoreThanNFriendsDocumentQuery(n) {
      Cancel(Lines(FindUsersWithMoreThanNFriendsDocument0), IntToString(m), IntToString(n), Lines(FindUsersWithMoreThanNFriendsDocument1));
      IntToStringInjective(m, n);
    }
    if BuildFindUsersWithMoreThanNFriendsGraphQuery(m) == BuildFindUsersWithMoreThanNFriendsGraphQuery(n) {
      Cancel(Lines(FindUsersWithMoreThanNFriendsGraph0), IntToString(m), IntToString(n), Lines(FindUsersWithMoreThanNFriendsGraph1));
      IntToStringInjective(m, n);
    }
  }

  /**
   * The shortest-path query starts from `startUserId` and names `endUserId` twice: once to
   * restrict the `$graphLookup` and once in the final `$match` on `path.to`.
   */
  lemma ShortestPathEndTwice(startUserId: string, endUserId: string)
    ensures var q := BuildFindShortestPathDocumentQuery(startUserId, endUserId);
      && Contains(q, "{ $match: { from: '" + startUserId + "' } }")
      && Contains(q, "restrictSearchWithMatch: { to: '" + endUserId + "' }")
      && Contains(q, "{ $match: { 'path.to': '" + endUserId + "' } }")
  {
    var s0, s1, s2, s3 := FindShortestPathDocument0, FindShortestPathDocument1, FindShortestPathDocument2, FindShortestPathDocument3;
    Template3First(s0, startUserId, s1, endUserId, s2, endUserId, s3, "{ $match: { from: '", "' } }");
    Template3Second(s0, startUserId, s1, endUserId, s2, endUserId, s3, "restrictSearchWithMatch: { to: '", "' }");
    Template3Third(s0, startUserId, s1, endUserId, s2, endUserId, s3, "{ $match: { 'path.to': '", "' } }");
  }

  /** The document and graph shortest-path builders produce the same text. */
  lemma ShortestPathVariantsAgree(startUserId: string, endUserId: string)
    ensures BuildFindShortestPathDocumentQuery(startUserId, endUserId) == BuildFindShortestPathGraphQuery(startUserId, endUserId)
  {
  }
}
