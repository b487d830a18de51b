/**
 * The OrientDB query catalog: OrientDB SQL text, one builder per logical query and variant.
 * Every builder splices its arguments into fixed text with no escaping; the source
 * files end their lines with CR LF, so the line breaks inside the text are `NL`.
 */
module OrientQueries {
  import opened Text

  const FindFriendsDocument0: seq<string> :=
    [
      "",
      "        SELECT expand(out('edges')) ",
      "        FROM User ",
      "        WHERE _key = '"]
  const FindFriendsDocument1: seq<string> :=
    ["'"]

  /** OrientDB SQL: `expand(out('edges'))` of the `User` whose `_key` is `userId`. */
  function BuildFindFriendsDocumentQuery(userId: string): string {
    Lines(FindFriendsDocument0) + userId + Lines(FindFriendsDocument1)
  }

  const FindFriendsGraph0: seq<string> :=
    [
      "",
      "        SELECT expand(out('edges')) ",
      "        FROM User ",
      "        WHERE _key = '"]
  const FindFriendsGraph1: seq<string> :=
    ["'"]

  /** The same text as the document variant. */
  function BuildFindFriendsGraphQuery(userId: string): string {
    Lines(FindFriendsGraph0) + userId + Lines(FindFriendsGraph1)
  }

  const FindFriendsOfFriendsDocument0: seq<string> :=
    [
      "",
      "        SELECT expand(out('edges').out('edges')) ",
      "        FROM User ",
      "        WHERE _key = '"]
  const FindFriendsOfFriendsDocument1: seq<string> :=
    ["'"]

  /** As the friends query, with `out('edges').out('edges')`. */
  function BuildFindFriendsOfFriendsDocumentQuery(userId: string): string {
    Lines(FindFriendsOfFriendsDocument0) + userId + Lines(FindFriendsOfFriendsDocument1)
  }

  const FindFriendsOfFriendsGraph0: seq<string> :=
    [
      "",
      "        SELECT expand(out('edges').out('edges')) ",
      "        FROM User ",
      "        WHERE _key = '"]
  const FindFriendsOfFriendsGraph1: seq<string> :=
    ["'"]

  /** The same text as the document variant. */
  function BuildFindFriendsOfFriendsGraphQuery(userId: string): string {
    Lines(FindFriendsOfFriendsGraph0) + userId + Lines(FindFriendsOfFriendsGraph1)
  }

  const FindMutualFriendsDocument0: seq<string> :=
    [
      "",
      "        LET friends1 = (",
      "            SELECT expand(out('edges')) ",
      "            FROM User ",
      "            WHERE _key = '"]
  const FindMutualFriendsDocument1: seq<string> :=
    [
      "'",
      "        )",
      "        LET friends2 = (",
      "            SELECT expand(out('edges')) ",
      "            FROM User ",
      "            WHERE _key = '"]
  const FindMutualFriendsDocument2: seq<string> :=
    [
      "'",
      "        )",
      "        SELECT intersect(friends1, friends2) ",
      "        FROM User"]

  /** OrientDB SQL: `friends1` from `user1Id`, `friends2` from `user2Id`, then `intersect`. */
  function BuildFindMutualFriendsDocumentQuery(user1Id: string, user2Id: string): string {
    Lines(FindMutualFriendsDocument0) + user1Id + Lines(FindMutualFriendsDocument1) + user2Id + Lines(FindMutualFriendsDocument2)
  }

  const FindMutualFriendsGraph0: seq<string> :=
    [
      "",
      "        LET friends1 = (",
      "            SELECT expand(out('edges')) ",
      "            FROM User ",
      "            WHERE _key = '"]
  const FindMutualFriendsGraph1: seq<string> :=
    [
      "'",
      "        )",
      "        LET friends2 = (",
      "            SELECT expand(out('edges')) ",
      "            FROM User ",
      "            WHERE _key = '"]
  const FindMutualFriendsGraph2: seq<string> :=
    [
      "'",
      "        )",
      "        SELECT intersect(friends1, friends2) ",
      "        FROM User"]

  /** The same text as the document variant. */
  function BuildFindMutualFriendsGraphQuery(user1Id: string, user2Id: string): string {
    Lines(FindMutualFriendsGraph0) + user1Id + Lines(FindMutualFriendsGraph1) + user2Id + Lines(FindMutualFriendsGraph2)
  }

  const CountFriendsDocument0: seq<string> :=
    [
      "",
      "        SELECT count(out('edges')) AS friendCount ",
      "        FROM User ",
      "        WHERE _key = '"]
  const CountFriendsDocument1: seq<string> :=
    ["'"]

  /** OrientDB SQL: `count(out('edges'))` of the `User` whose `_key` is `userId`. */
  function BuildCountFriendsDocumentQuery(userId: string): string {
    Lines(CountFriendsDocument0) + userId + Lines(CountFriendsDocument1)
  }

  const CountFriendsGraph0: seq<string> :=
    [
      "",
      "        SELECT count(out('edges')) AS friendCount ",
      "        FROM User ",
      "        WHERE _key = '"]
  const CountFriendsGraph1: seq<string> :=
    ["'"]

  /** The same text as the document variant. */
  function BuildCountFriendsGraphQuery(userId: string): string {
    Lines(CountFriendsGraph0) + userId + Lines(CountFriendsGraph1)
  }

  const FindUsersWithMoreThanNFriendsDocument0: seq<string> :=
    [
      "",
      "        SELECT _key ",
      "        FROM User ",
      "        WHERE count(out('edges')) > "]
  const FindUsersWithMoreThanNFriendsDocument1: seq<string> :=
    [""]

  /** OrientDB SQL: users with `count(out('edges')) > n`. */
  function BuildFindUsersWithMoreThanNFriendsDocumentQuery(n: int): string {
    Lines(FindUsersWithMoreThanNFriendsDocument0) + IntToString(n) + Lines(FindUsersWithMoreThanNFriendsDocument1)
  }

  const FindUsersWithMoreThanNFriendsGraph0: seq<string> :=
    [
      "",
      "        SELECT _key ",
      "        FROM User ",
      "        WHERE count(out('edges')) > "]
  const FindUsersWithMoreThanNFriendsGraph1: seq<string> :=
    [""]

  /** The same text as the document variant. */
  function BuildFindUsersWithMoreThanNFriendsGraphQuery(n: int): string {
    Lines(FindUsersWithMoreThanNFriendsGraph0) + IntToString(n) + Lines(FindUsersWithMoreThanNFriendsGraph1)
  }

  const FindShortestPathDocument0: seq<string> :=
    [
      "",
      "        SELECT shortestPath((SELECT FROM User WHERE _key = '"]
  const FindShortestPathDocument1: seq<string> :=
    [
      "'), ",
      "                           (SELECT FROM User WHERE _key = '"]
  const FindShortestPathDocument2: seq<string> :=
    ["'), 'OUTBOUND')"]

  /** OrientDB SQL `shortestPath` from the start user to the end user, direction `'OUTBOUND'`. */
  function BuildFindShortestPathDocumentQuery(startUserId: string, endUserId: string): string {
    Lines(FindShortestPathDocument0) + startUserId + Lines(FindShortestPathDocument1) + endUserId + Lines(FindShortestPathDocument2)
  }

  const FindShortestPathGraph0: seq<string> :=
    [
      "",
      "        SELECT shortestPath((SELECT FROM User WHERE _key = '"]
  const FindShortestPathGraph1: seq<string> :=
    [
      "'), ",
      "                           (SELECT FROM User WHERE _key = '"]
  const FindShortestPathGraph2: seq<string> :=
    ["'), 'OUTBOUND')"]

  /** The same text as the document variant. */
  function BuildFindShortestPathGraphQuery(startUserId: string, endUserId: string): string {
    Lines(FindShortestPathGraph0) + startUserId + Lines(FindShortestPathGraph1) + endUserId + Lines(FindShortestPathGraph2)
  }

  // ----- properties -----

  /** Every graph variant produces exactly the text of its document variant. */
  lemma GraphVariantsEqualDocumentVariants(u: string, v: string, n: int)
    ensures BuildFindFriendsGraphQuery(u) == BuildFindFriendsDocumentQuery(u)
    ensures BuildFindFriendsOfFriendsGraphQuery(u) == BuildFindFriendsOfFriendsDocumentQuery(u)
    ensures BuildFindMutualFriendsGraphQuery(u, v) == BuildFindMutualFriendsDocumentQuery(u, v)
    ensures BuildCountFriendsGraphQuery(u) == BuildCountFriendsDocumentQuery(u)
    ensures BuildFindUsersWithMoreThanNFriendsGraphQuery(n) == BuildFindUsersWithMoreThanNFriendsDocumentQuery(n)
    ensures BuildFindShortestPathGraphQuery(u, v) == BuildFindShortestPathDocumentQuery(u, v)
  {
  }

  /**
   * The builders with one user id splice it raw between fixed texts, so distinct ids give
   * distinct query texts.
   */
  lemma SingleUserBuildersInjective(u1: string, u2: string)
    ensures BuildFindFriendsDocumentQuery(u1) == BuildFindFriendsDocumentQuery(u2) ==> u1 == u2
    ensures BuildFindFriendsOfFriendsDocumentQuery(u1) == BuildFindFriendsOfFriendsDocumentQuery(u2) ==> u1 == u2
    ensures BuildCountFriendsDocumentQuery(u1) == BuildCountFriendsDocumentQuery(u2) ==> u1 == u2
  {
    if BuildFindFriendsDocumentQuery(u1) == BuildFindFriendsDocumentQuery(u2) {
      Cancel(Lines(FindFriendsDocument0), u1, u2, Lines(FindFriendsDocument1));
    }
    if BuildFindFriendsOfFriendsDocumentQuery(u1) == BuildFindFriendsOfFriendsDocumentQuery(u2) {
      Cancel(Lines(FindFriendsOfFriendsDocument0), u1, u2, Lines(FindFriendsOfFriendsDocument1));
    }
    if BuildCountFriendsDocumentQuery(u1) == BuildCountFriendsDocumentQuery(u2) {
      Cancel(Lines(CountFriendsDocument0), u1, u2, Lines(CountFriendsDocument1));
    }
  }

  /** The friends query selects the user whose `_key` is `userId` and expands its outgoing edges once. */
  lemma FindFriendsShape(userId: string)
    ensures Contains(BuildFindFriendsDocumentQuery(userId), "WHERE _key = '" + userId + "'")
    ensures Contains(BuildFindFriendsDocumentQuery(userId), "        SELECT expand(out('edges')) ")
  {
    Template1(FindFriendsDocument0, userId, FindFriendsDocument1, "WHERE _key = '", "'");
    LinesHaveLine(FindFriendsDocument0, 1);
    ContainsLeft(Lines(FindFriendsDocument0), userId, "        SELECT expand(out('edges')) ");
    ContainsLeft(Lines(FindFriendsDocument0) + userId, Lines(FindFriendsDocument1), "        SELECT expand(out('edges')) ");
  }

  /** The friends-of-friends query selects the same user and follows outgoing edges twice. */
  lemma FindFriendsOfFriendsShape(userId: string)
    ensures Contains(BuildFindFriendsOfFriendsDocumentQuery(userId), "WHERE _key = '" + userId + "'")
    ensures Contains(BuildFindFriendsOfFriendsDocumentQuery(userId), "        SELECT expand(out('edges').out('edges')) ")
  {
    var t := "        SELECT expand(out('edges').out('edges')) ";
    Template1(FindFriendsOfFriendsDocument0, userId, FindFriendsOfFriendsDocument1, "WHERE _key = '", "'");
    LinesHaveLine(FindFriendsOfFriendsDocument0, 1);
    ContainsLeft(Lines(FindFriendsOfFriendsDocument0), userId, t);
    ContainsLeft(Lines(FindFriendsOfFriendsDocument0) + userId, Lines(FindFriendsOfFriendsDocument1), t);
  }

  /** The count query counts the outgoing edges of the user whose `_key` is `userId`. */
  lemma CountFriendsShape(userId: string)
    ensures Contains(BuildCountFriendsDocumentQuery(userId), "WHERE _key = '" + userId + "'")
    ensures Contains(BuildCountFriendsDocumentQuery(userId), "        SELECT count(out('edges')) AS friendCount ")
  {
    var t := "        SELECT count(out('edges')) AS friendCount ";
    Template1(CountFriendsDocument0, userId, CountFriendsDocument1, "WHERE _key = '", "'");
    LinesHaveLine(CountFriendsDocument0, 1);
    ContainsLeft(Lines(CountFriendsDocument0), userId, t);
    ContainsLeft(Lines(CountFriendsDocument0) + userId, Lines(CountFriendsDocument1), t);
  }

  /** `friends1` is selected by the first user's key and `friends2` by the second's... */
  lemma MutualFriendsUsers(user1Id: string, user2Id: string)
    ensures Contains(BuildFindMutualFriendsDocumentQuery(user1Id, user2Id),
                     "WHERE _key = '" + user1Id + Lines(FindMutualFriendsDocument1) + user2Id + "'")
  {
    Template2Both(FindMutualFriendsDocument0, user1Id, FindMutualFriendsDocument1, user2Id, FindMutualFriendsDocument2,
                  "WHERE _key = '", "'");
  }

  /** ... and the result is their `intersect`. */
  lemma MutualFriendsIntersect(user1Id: string, user2Id: string)
    ensures Contains(BuildFindMutualFriendsDocumentQuery(user1Id, user2Id), "        SELECT intersect(friends1, friends2) ")
  {
    LinesHaveLine(FindMutualFriendsDocument2, 2);
    ContainsRight(Lines(FindMutualFriendsDocument0) + user1Id + Lines(FindMutualFriendsDocument1) + user2Id,
                  Lines(FindMutualFriendsDocument2), "        SELECT intersect(friends1, friends2) ");
  }

  /** The "more than n" query ends with the comparison `count(out('edges')) > n`, `n` in decimal. */
  lemma MoreThanNThreshold(n: int)
    ensures EndsWith(BuildFindUsersWithMoreThanNFriendsDocumentQuery(n), "        WHERE count(out('edges')) > " + IntToString(n))
  {
    TemplateEnd(FindUsersWithMoreThanNFriendsDocument0, IntToString(n), "        WHERE count(out('edges')) > ");
  }

  /** The threshold can be read back from the text: distinct `n` give distinct queries. */
  lemma MoreThanNInjective(m: int, n: int)
    ensures BuildFindUsersWithMoreThanNFriendsDocumentQuery(m) == BuildFindUsersWithMoreThanNFriendsDocumentQuery(n) ==> m == n
  {
    if BuildFindUsersWithMoreThanNFriendsDocumentQuery(m) == BuildFindUsersWithMoreThanNFriendsDocumentQuery(n) {
      Cancel(Lines(FindUsersWithMoreThanNFriendsDocument0), IntToString(m), IntToString(n), Lines(FindUsersWithMoreThanNFriendsDocument1));
      IntToStringInjective(m, n);
    }
  }

  /** `shortestPath` takes the start user's vertex first... */
  lemma ShortestPathStart(startUserId: string, endUserId: string)
    ensures Contains(BuildFindShortestPathDocumentQuery(startUserId, endUserId),
                     "        SELECT shortestPath((SELECT FROM User WHERE _key = '" + startUserId + "'), ")
  {
    Template2First(FindShortestPathDocument0, startUserId, FindShortestPathDocument1, endUserId, FindShortestPathDocument2,
                   "        SELECT shortestPath((SELECT FROM User WHERE _key = '", "'), ");
  }

  /** ... then the end user's vertex, and follows edges `'OUTBOUND'`. */
  lemma ShortestPathEnd(startUserId: string, endUserId: string)
    ensures Contains(BuildFindShortestPathDocumentQuery(startUserId, endUserId),
                     "                           (SELECT FROM User WHERE _key = '" + endUserId + "'), 'OUTBOUND')")
  {
    Template2Second(FindShortestPathDocument0, startUserId, FindShortestPathDocument1, endUserId, FindShortestPathDocument2,
                    "                           (SELECT FROM User WHERE _key = '", "'), 'OUTBOUND')");
  }
}
