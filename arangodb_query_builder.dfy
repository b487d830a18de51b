/**
 * The ArangoDB query catalog: AQL text, one builder per logical query and variant.
 * Every builder splices its arguments into fixed text with no escaping; the source
 * files end their lines with CR LF, so the line breaks inside the text are `NL`.
 */
module ArangoQueries {
  import opened Text

  const FindFriendsDocument0: seq<string> :=
    [
      "",
      "        FOR edge IN edges",
      "            FILTER edge._from == '"]
  const FindFriendsDocument1: seq<string> :=
    [
      "'",
      "            RETURN edge._to"]

  /** AQL scanning `edges` for `_from == userId` and returning `_to`. */
  function BuildFindFriendsDocumentQuery(userId: string): string {
    Lines(FindFriendsDocument0) + userId + Lines(FindFriendsDocument1)
  }

  const FindFriendsGraph0: seq<string> :=
    [
      "",
      "        FOR vertex, edge IN 1..1 OUTBOUND '"]
  const FindFriendsGraph1: seq<string> :=
    [
      "' edges",
      "            RETURN vertex._key"]

  /** AQL traversal `1..1 OUTBOUND` from `userId`. */
  function BuildFindFriendsGraphQuery(userId: string): string {
    Lines(FindFriendsGraph0) + userId + Lines(FindFriendsGraph1)
  }

  const FindFriendsOfFriendsDocument0: seq<string> :=
    [
      "",
      "        LET friends = (",
      "            FOR edge IN edges",
      "                FILTER edge._from == '"]
  const FindFriendsOfFriendsDocument1: seq<string> :=
    [
      "'",
      "                RETURN edge._to",
      "        )",
      "        FOR friend IN friends",
      "            FOR edge IN edges",
      "                FILTER edge._from == friend",
      "                RETURN edge._to"]

  /** AQL: the friends subquery, then one more scan of `edges` per friend. */
  function BuildFindFriendsOfFriendsDocumentQuery(userId: string): string {
    Lines(FindFriendsOfFriendsDocument0) + userId + Lines(FindFriendsOfFriendsDocument1)
  }

  const FindFriendsOfFriendsGraph0: seq<string> :=
    [
      "",
      "        FOR vertex, edge, path IN 2..2 OUTBOUND '"]
  const FindFriendsOfFriendsGraph1: seq<string> :=
    [
      "' edges",
      "            RETURN vertex._key"]

  /** AQL traversal `2..2 OUTBOUND` from `userId`. */
  function BuildFindFriendsOfFriendsGraphQuery(userId: string): string {
    Lines(FindFriendsOfFriendsGraph0) + userId + Lines(FindFriendsOfFriendsGraph1)
  }

  const FindMutualFriendsDocument0: seq<string> :=
    [
      "",
      "        LET friends1 = (",
      "            FOR edge IN edges",
      "                FILTER edge._from == '"]
  const FindMutualFriendsDocument1: seq<string> :=
    [
      "'",
      "                RETURN edge._to",
      "        )",
      "        LET friends2 = (",
      "            FOR edge IN edges",
      "                FILTER edge._from == '"]
  const FindMutualFriendsDocument2: seq<string> :=
    [
      "'",
      "                RETURN edge._to",
      "        )",
      "        FOR friend IN INTERSECTION(friends1, friends2)",
      "            RETURN friend"]

  /** AQL: `INTERSECTION` of the edge scans from `user1Id` and from `user2Id`. */
  function BuildFindMutualFriendsDocumentQuery(user1Id: string, user2Id: string): string {
    Lines(FindMutualFriendsDocument0) + user1Id + Lines(FindMutualFriendsDocument1) + user2Id + Lines(FindMutualFriendsDocument2)
  }

  const FindMutualFriendsGraph0: seq<string> :=
    [
      "",
      "        LET friends1 = (",
      "            FOR vertex, edge IN 1..1 OUTBOUND '"]
  const FindMutualFriendsGraph1: seq<string> :=
    [
      "' edges",
      "                RETURN vertex._key",
      "        )",
      "        LET friends2 = (",
      "            FOR vertex, edge IN 1..1 OUTBOUND '"]
  const FindMutualFriendsGraph2: seq<string> :=
    [
      "' edges",
      "                RETURN vertex._key",
      "        )",
      "        FOR friend IN INTERSECTION(friends1, friends2)",
      "            RETURN friend"]

  /** AQL: `INTERSECTION` of the `1..1 OUTBOUND` traversals from `user1Id` and from `user2Id`. */
  function BuildFindMutualFriendsGraphQuery(user1Id: string, user2Id: string): string {
    Lines(FindMutualFriendsGraph0) + user1Id + Lines(FindMutualFriendsGraph1) + user2Id + Lines(FindMutualFriendsGraph2)
  }

  const CountFriendsDocument0: seq<string> :=
    [
      "",
      "        RETURN LENGTH(",
      "            FOR edge IN edges",
      "                FILTER edge._from == '"]
  const CountFriendsDocument1: seq<string> :=
    [
      "'",
      "                RETURN edge._to",
      "        )"]

  /** AQL: `LENGTH` of the edge scan from `userId`. */
  function BuildCountFriendsDocumentQuery(userId: string): string {
    Lines(CountFriendsDocument0) + userId + Lines(CountFriendsDocument1)
  }

  const CountFriendsGraph0: seq<string> :=
    [
      "",
      "        RETURN LENGTH(",
      "            FOR vertex, edge IN 1..1 OUTBOUND '"]
  const CountFriendsGraph1: seq<string> :=
    [
      "' edges",
      "                RETURN vertex._key",
      "        )"]

  /** AQL: `LENGTH` of the `1..1 OUTBOUND` traversal from `userId`. */
  function BuildCountFriendsGraphQuery(userId: string): string {
    Lines(CountFriendsGraph0) + userId + Lines(CountFriendsGraph1)
  }

  const FindUsersWithMoreThanNFriendsDocument0: seq<string> :=
    [
      "",
      "    FOR edge IN edges",
      "        COLLECT from = edge._from INTO groups",
      "        LET count = LENGTH(groups)",
      "        FILTER count > "]
  const FindUsersWithMoreThanNFriendsDocument1: seq<string> :=
    [
      "",
      "        RETURN from"]

  /** AQL: `COLLECT` edges by `_from`, keep groups with `count > n`. */
  function BuildFindUsersWithMoreThanNFriendsDocumentQuery(n: int): string {
    Lines(FindUsersWithMoreThanNFriendsDocument0) + IntToString(n) + Lines(FindUsersWithMoreThanNFriendsDocument1)
  }

  const FindUsersWithMoreThanNFriendsGraph0: seq<string> :=
    [
      "",
      "        LET friends = (",
      "            FOR vertex, edge IN 1..1 OUTBOUND 'users/{userId}' edges",
      "                RETURN edge._from",
      "        )",
      "        FOR friend IN friends",
      "            COLLECT from = friend INTO groups",
      "            LET count = LENGTH(groups)",
      "            FILTER count > "]
  const FindUsersWithMoreThanNFriendsGraph1: seq<string> :=
    [
      "",
      "            RETURN from"]

  /** AQL traversal from the literal start vertex `users/{userId}` (the braces are escaped, so nothing is substituted), then `COLLECT` with `count > n`. */
  function BuildFindUsersWithMoreThanNFriendsGraphQuery(n: int): string {
    Lines(FindUsersWithMoreThanNFriendsGraph0) + IntToString(n) + Lines(FindUsersWithMoreThanNFriendsGraph1)
  }

  const FindShortestPathDocument0: seq<string> :=
    [
      "",
      "        FOR path IN OUTBOUND SHORTEST_PATH '"]
  const FindShortestPathDocument1: seq<string> :=
    ["' TO '"]
  const FindShortestPathDocument2: seq<string> :=
    [
      "' edges",
      "            RETURN path"]

  /** AQL `OUTBOUND SHORTEST_PATH` from `startUserId` to `endUserId`, returning the path. */
  function BuildFindShortestPathDocumentQuery(startUserId: string, endUserId: string): string {
    Lines(FindShortestPathDocument0) + startUserId + Lines(FindShortestPathDocument1) + endUserId + Lines(FindShortestPathDocument2)
  }

  const FindShortestPathGraph0: seq<string> :=
    [
      "",
      "        FOR vertex, edge IN OUTBOUND SHORTEST_PATH '"]
  const FindShortestPathGraph1: seq<string> :=
    ["' TO '"]
  const FindShortestPathGraph2: seq<string> :=
    [
      "' edges",
      "            RETURN vertex._key"]

  /** AQL `OUTBOUND SHORTEST_PATH` from `startUserId` to `endUserId`, returning vertex keys. */
  function BuildFindShortestPathGraphQuery(startUserId: string, endUserId: string): string {
    Lines(FindShortestPathGraph0) + startUserId + Lines(FindShortestPathGraph1) + endUserId + Lines(FindShortestPathGraph2)
  }

  // ----- properties -----

  /**
   * The builders with one user id splice it raw between fixed texts, so distinct ids give
   * distinct query texts.
   */
  lemma SingleUserBuildersInjective(u1: string, u2: string)
    ensures BuildFindFriendsDocumentQuery(u1) == BuildFindFriendsDocumentQuery(u2) ==> u1 == u2
    ensures BuildFindFriendsGraphQuery(u1) == BuildFindFriendsGraphQuery(u2) ==> u1 == u2
    ensures BuildFindFriendsOfFriendsDocumentQuery(u1) == BuildFindFriendsOfFriendsDocumentQuery(u2) ==> u1 == u2
    ensures BuildFindFriendsOfFriendsGraphQuery(u1) == BuildFindFriendsOfFriendsGraphQuery(u2) ==> u1 == u2
    ensures BuildCountFriendsDocumentQuery(u1) == BuildCountFriendsDocumentQuery(u2) ==> u1 == u2
    ensures BuildCountFriendsGraphQuery(u1) == BuildCountFriendsGraphQuery(u2) ==> u1 == u2
  {
    if BuildFindFriendsDocumentQuery(u1) == BuildFindFriendsDocumentQuery(u2) {
      Cancel(Lines(FindFriendsDocument0), u1, u2, Lines(FindFriendsDocument1));
    }
    if BuildFindFriendsGraphQuery(u1) == BuildFindFriendsGraphQuery(u2) {
      Cancel(Lines(FindFriendsGraph0), u1, u2, Lines(FindFriendsGraph1));
    }
    if BuildFindFriendsOfFriendsDocumentQuery(u1) == BuildFindFriendsOfFriendsDocumentQuery(u2) {
      Cancel(Lines(FindFriendsOfFriendsDocument0), u1, u2, Lines(FindFriendsOfFriendsDocument1));
    }
    if BuildFindFriendsOfFriendsGraphQuery(u1) == BuildFindFriendsOfFriendsGraphQuery(u2) {
      Cancel(Lines(FindFriendsOfFriendsGraph0), u1, u2, Lines(FindFriendsOfFriendsGraph1));
    }
    if BuildCountFriendsDocumentQuery(u1) == BuildCountFriendsDocumentQuery(u2) {
      Cancel(Lines(CountFriendsDocument0), u1, u2, Lines(CountFriendsDocument1));
    }
    if BuildCountFriendsGraphQuery(u1) == BuildCountFriendsGraphQuery(u2) {
      Cancel(Lines(CountFriendsGraph0), u1, u2, Lines(CountFriendsGraph1));
    }
  }

  /** The document friends query filters edges on `_from == '<userId>'`. */
  lemma FindFriendsDocumentFilter(userId: string)
    ensures Contains(BuildFindFriendsDocumentQuery(userId), "FILTER edge._from == '" + userId + "'")
  {
    Template1(FindFriendsDocument0, userId, FindFriendsDocument1, "FILTER edge._from == '", "'");
  }

  /** The graph friends query is a traversal of depth exactly one from `userId`. */
  lemma FindFriendsGraphDepthOne(userId: string)
    ensures Contains(BuildFindFriendsGraphQuery(userId), "IN 1..1 OUTBOUND '" + userId + "' edges")
  {
    Template1(FindFriendsGraph0, userId, FindFriendsGraph1, "IN 1..1 OUTBOUND '", "' edges");
  }

  /** The graph friends-of-friends query is a traversal of depth exactly two from `userId`. */
  lemma FindFriendsOfFriendsGraphDepthTwo(userId: string)
    ensures Contains(BuildFindFriendsOfFriendsGraphQuery(userId), "IN 2..2 OUTBOUND '" + userId + "' edges")
  {
    Template1(FindFriendsOfFriendsGraph0, userId, FindFriendsOfFriendsGraph1, "IN 2..2 OUTBOUND '", "' edges");
  }

  /** The document mutual-friends query scans the edges of the first user, then those of the second... */
  lemma MutualFriendsDocumentUsers(user1Id: string, user2Id: string)
    ensures Contains(BuildFindMutualFriendsDocumentQuery(user1Id, user2Id),
                     "FILTER edge._from == '" + user1Id + Lines(FindMutualFriendsDocument1) + user2Id + "'")
  {
    Template2Both(FindMutualFriendsDocument0, user1Id, FindMutualFriendsDocument1, user2Id, FindMutualFriendsDocument2,
                  "FILTER edge._from == '", "'");
  }

  /** ... and returns the intersection of the two scans. */
  lemma MutualFriendsDocumentIntersection(user1Id: string, user2Id: string)
    ensures Contains(BuildFindMutualFriendsDocumentQuery(user1Id, user2Id), "        FOR friend IN INTERSECTION(friends1, friends2)")
  {
    var t := "        FOR friend IN INTERSECTION(friends1, friends2)";
    LinesHaveLine(FindMutualFriendsDocument2, 3);
    ContainsRight(Lines(FindMutualFriendsDocument0) + user1Id + Lines(FindMutualFriendsDocument1) + user2Id,
                  Lines(FindMutualFriendsDocument2), t);
  }

  /** The graph mutual-friends query traverses one hop from the first user, then one hop from the second. */
  lemma MutualFriendsGraphUsers(user1Id: string, user2Id: string)
    ensures Contains(BuildFindMutualFriendsGraphQuery(user1Id, user2Id),
                     "IN 1..1 OUTBOUND '" + user1Id + Lines(FindMutualFriendsGraph1) + user2Id + "' edges")
  {
    Template2Both(FindMutualFriendsGraph0, user1Id, FindMutualFriendsGraph1, user2Id, FindMutualFriendsGraph2,
                  "IN 1..1 OUTBOUND '", "' edges");
  }

  /** ... and also returns the intersection of the two traversals. */
  lemma MutualFriendsGraphIntersection(user1Id: string, user2Id: string)
    ensures Contains(BuildFindMutualFriendsGraphQuery(user1Id, user2Id), "        FOR friend IN INTERSECTION(friends1, friends2)")
  {
    var t := "        FOR friend IN INTERSECTION(friends1, friends2)";
    LinesHaveLine(FindMutualFriendsGraph2, 3);
    ContainsRight(Lines(FindMutualFriendsGraph0) + user1Id + Lines(FindMutualFriendsGraph1) + user2Id,
                  Lines(FindMutualFriendsGraph2), t);
  }

  /** Both "more than n" builders write `n` in decimal after `FILTER count > `. */
  lemma MoreThanNThreshold(n: int)
    ensures Contains(BuildFindUsersWithMoreThanNFriendsDocumentQuery(n), "FILTER count > " + IntToString(n))
    ensures Contains(BuildFindUsersWithMoreThanNFriendsGraphQuery(n), "FILTER count > " + IntToString(n))
  {
    Template1(FindUsersWithMoreThanNFriendsDocument0, IntToString(n), FindUsersWithMoreThanNFriendsDocument1,
              "FILTER count > ", "");
    assert "FILTER count > " + IntToString(n) + "" == "FILTER count > " + IntToString(n);
    Template1(FindUsersWithMoreThanNFriendsGraph0, IntToString(n), FindUsersWithMoreThanNFriendsGraph1,
              "FILTER count > ", "");
  }

  /** The threshold can be read back from the text: distinct `n` give distinct queries. */
  lemma MoreThanNInjective(m: int, n: int)
    ensures BuildFindUsersWithMoreThanNFriendsDocumentQuery(m) == BuildFindUsersWithMoreThanNFriendsDocumentQuery(n) ==> m == n
    ensures BuildFindUsersWithMoreThanNFriendsGraphQuery(m) == BuildFindUsersWithMoreThanNFriendsGraphQuery(n) ==> m == n
  {
    if BuildFindUsersWithMoreThanNFriendsDocumentQuery(m) == BuildFindUsersWithMoreThanNFriendsDocumentQuery(n) {
      Cancel(Lines(FindUsersWithMoreThanNFriendsDocument0), IntToString(m), IntToString(n), Lines(FindUsersWithMoreThanNFriendsDocument1));
      IntToStringInjective(m, n);
    }
    if BuildFindUsersWithMoreThanNFriendsGraphQuery(m) == BuildFindUsersWithMoreThanNFriendsGraphQuery(n) {
      Cancel(Lines(FindUsersWithMoreThanNFriendsGraph0), IntToString(m), IntToString(n), Lines(FindUsersWithMoreThanNFriendsGraph1));
      IntToStringInjective(m, n);
    }
  }

  /**
   * The graph "more than n" query starts its traversal from the fixed vertex id `users/{userId}`
   * whatever `n` is: the doubled braces of the template leave the placeholder in the text.
   */
  lemma MoreThanNGraphFixedStart(n: int)
    ensures Contains(BuildFindUsersWithMoreThanNFriendsGraphQuery(n), "OUTBOUND 'users/{userId}' edges")
  {
    var t := "OUTBOUND 'users/{userId}' edges";
    LinesHaveLineEnd(FindUsersWithMoreThanNFriendsGraph0, 2, t);
    ContainsLeft(Lines(FindUsersWithMoreThanNFriendsGraph0), IntToString(n), t);
    ContainsLeft(Lines(FindUsersWithMoreThanNFriendsGraph0) + IntToString(n), Lines(FindUsersWithMoreThanNFriendsGraph1), t);
  }

  /** The document shortest-path query asks for the outbound shortest path from the start user to the end user. */
  lemma ShortestPathDocumentEnds(startUserId: string, endUserId: string)
    ensures Contains(BuildFindShortestPathDocumentQuery(startUserId, endUserId),
                     "OUTBOUND SHORTEST_PATH '" + startUserId + "' TO '" + endUserId + "' edges")
  {
    Template2Both(FindShortestPathDocument0, startUserId, FindShortestPathDocument1, endUserId, FindShortestPathDocument2,
                  "OUTBOUND SHORTEST_PATH '", "' edges");
  }

  /** So does the graph one, returning vertex keys instead of the path. */
  lemma ShortestPathGraphEnds(startUserId: string, endUserId: string)
    ensures Contains(BuildFindShortestPathGraphQuery(startUserId, endUserId),
                     "OUTBOUND SHORTEST_PATH '" + startUserId + "' TO '" + endUserId + "' edges")
  {
    Template2Both(FindShortestPathGraph0, startUserId, FindShortestPathGraph1, endUserId, FindShortestPathGraph2,
                  "OUTBOUND SHORTEST_PATH '", "' edges");
  }
}
