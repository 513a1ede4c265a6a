/** The web service's request handling (metadata_api.py): the session table,
    the per-request search decision, the backslash metadata command (parsing,
    database lookup, result lines), the sanitised answer, and the record
    numbering of an uploaded resume. */
module MetadataApi {
  import opened Strings
  import opened VectorIndex
  import opened Chunking
  import opened Conversation

  /** Each session keeps its last three exchanges. */
  const SessionMaxHistory: nat := 3
  /** The metadata command returns at most twenty rows. */
  const MetadataLimit: nat := 20
  /** At most five skills are shown per row. */
  const ShownSkills: nat := 5

  // ---------------------------------------------------------------------
  // The search decision
  // ---------------------------------------------------------------------

  /** Inputs starting with a backslash are metadata commands. */
  predicate IsMetadataCommand(input: string) {
    StartsWith(input, "\\")
  }

  predicate AsksNewSearch(input: string) {
    Contains(Lower(input), "new search")
  }

  predicate HasAssistantMessage(history: seq<Message>) {
    exists i :: 0 <= i < |history| && history[i].role == "assistant"
  }

  /** `search_new`: a new session, a metadata command, an explicit request, or
      a history (already holding the new question) without any answer. */
  predicate SearchNew(isNewSession: bool, input: string, history: seq<Message>) {
    isNewSession || IsMetadataCommand(input) || AsksNewSearch(input) || !HasAssistantMessage(history)
  }

  /** In an ongoing session whose last message is an answer, recording the next
      question keeps that answer in the bounded history, so only the input
      itself can ask for a new search. */
  lemma FollowUpDecision(history: seq<Message>, input: string)
    requires history != [] && history[|history| - 1].role == "assistant"
    ensures SearchNew(false, input, KeepLast(history + [Message("user", input)], 2 * SessionMaxHistory))
        <==> IsMetadataCommand(input) || AsksNewSearch(input)
  {
    var asked := KeepLast(history + [Message("user", input)], 2 * SessionMaxHistory);
    assert asked[|asked| - 2] == history[|history| - 1];
  }

  /** A session whose history holds no answer yet always searches: recording the
      question adds no answer, and eviction only drops messages. */
  lemma FirstQuestionSearches(history: seq<Message>, input: string)
    requires !HasAssistantMessage(history)
    ensures SearchNew(false, input, KeepLast(history + [Message("user", input)], 2 * SessionMaxHistory))
  {
    var full := history + [Message("user", input)];
    var asked := KeepLast(full, 2 * SessionMaxHistory);
    forall i | 0 <= i < |asked|
      ensures asked[i].role != "assistant"
    {
      var j := |full| - |asked| + i;
      assert asked[i] == full[j];
      if j < |history| {
        assert full[j] == history[j];
      } else {
        assert full[j].role == "user" && "user"[0] != "assistant"[0];
      }
    }
  }

  // ---------------------------------------------------------------------
  // The metadata command
  // ---------------------------------------------------------------------

  const SkillsKey := "skills="
  const MinExperienceKey := "min_exp="
  const TitleKey := "title="
  const LocationKey := "location="

  /** What Python's `IndexError` says when `split()` finds no word. */
  const IndexErrorMessage := "list index out of range"

  /** Python's `float()` on a token: a value, or the text of the `ValueError` it raises. */
  datatype FloatResult = Float(value: real) | FloatError(message: string)

  /** The filters a command sets; `None` where its key is absent. */
  datatype Filters = Filters(skills: Option<seq<string>>, minExperience: Option<real>,
                             jobTitle: Option<string>, location: Option<string>)

  const NoFilters := Filters(None, None, None, None)

  /** A parsed command, or the text of the exception parsing raised. */
  datatype QueryParse = Query(filters: Filters) | QueryError(message: string)

  /** The field of one key: absent, present with nothing but whitespace after
      it, or its word. */
  datatype Field = Absent | Blank | Word(word: string)

  /** `q.split(key)[1].split()[0]`: the first word between the first occurrence
      of `key` and the next one. */
  function FieldOf(q: string, key: string): (f: Field)
    ensures f.Absent? <==> !Contains(q, key)
    ensures f.Word? ==> f.word != [] && forall i :: 0 <= i < |f.word| ==> !IsSpace(f.word[i])
  {
    if !Contains(q, key) then Absent
    else match FirstWord(BeforeFirst(AfterFirst(q, key), key))
      case None => Blank
      case Some(w) => Word(w)
  }

  /** A present key's field is read from the text between the key's first
      occurrence and its next one: blank when that text is all whitespace,
      otherwise the text's first word, preceded only by whitespace. */
  lemma FieldOfWordAt(q: string, key: string)
    requires Contains(q, key)
    ensures var i := Find(q, key).value;
      var segment := BeforeFirst(q[i + |key|..], key);
      && OccursAt(q, key, i) && (forall j :: 0 <= j < i ==> !OccursAt(q, key, j))
      && (FieldOf(q, key).Blank? <==> forall k :: 0 <= k < |segment| ==> IsSpace(segment[k]))
      && (FieldOf(q, key).Word? ==> exists n :: WordAt(segment, n, FieldOf(q, key).word))
  {
    var segment := BeforeFirst(AfterFirst(q, key), key);
    if FieldOf(q, key).Word? {
      FirstWordAt(segment);
    }
  }

  /** The command's filters as the source reads them, key by key in the order
      skills, minimum experience, title, location; the first failure is the result. */
  function ParseQuery(q: string, toFloat: string -> FloatResult): QueryParse {
    ParseFields(FieldOf(q, SkillsKey), FieldOf(q, MinExperienceKey), FieldOf(q, TitleKey), FieldOf(q, LocationKey), toFloat)
  }

  /** The filters for the four keys' fields: a blank field raises `IndexError`, a
      minimum experience that is not a number raises `float()`'s `ValueError`. */
  function ParseFields(skills: Field, minExp: Field, title: Field, location: Field, toFloat: string -> FloatResult): QueryParse {
    if skills.Blank? || minExp.Blank? then QueryError(IndexErrorMessage)
    else if minExp.Word? && toFloat(minExp.word).FloatError? then QueryError(toFloat(minExp.word).message)
    else if title.Blank? || location.Blank? then QueryError(IndexErrorMessage)
    else Query(Filters(
      if skills.Word? then Some(Split(skills.word, ',')) else None,
      if minExp.Word? then Some(toFloat(minExp.word).value) else None,
      if title.Word? then Some(title.word) else None,
      if location.Word? then Some(location.word) else None))
  }

  /** Parsing succeeds exactly when every present key has a word after it and the
      minimum experience is a number; a parsed filter is set exactly when its key
      occurs, and every skill is comma-free. */
  lemma ParseQueryOutcome(q: string, toFloat: string -> FloatResult)
    ensures ParseQuery(q, toFloat).Query? <==>
      !FieldOf(q, SkillsKey).Blank? && !FieldOf(q, MinExperienceKey).Blank?
      && !FieldOf(q, TitleKey).Blank? && !FieldOf(q, LocationKey).Blank?
      && (FieldOf(q, MinExperienceKey).Word? ==> toFloat(FieldOf(q, MinExperienceKey).word).Float?)
    ensures ParseQuery(q, toFloat).Query? ==>
      var f := ParseQuery(q, toFloat).filters;
      && (f.skills.Some? <==> Contains(q, SkillsKey))
      && (f.minExperience.Some? <==> Contains(q, MinExperienceKey))
      && (f.jobTitle.Some? <==> Contains(q, TitleKey))
      && (f.location.Some? <==> Contains(q, LocationKey))
      && (f.skills.Some? ==> forall k :: 0 <= k < |f.skills.value| ==> ',' !in f.skills.value[k])
    ensures ParseQuery(q, toFloat).QueryError? && ParseQuery(q, toFloat).message != IndexErrorMessage ==>
      FieldOf(q, MinExperienceKey).Word?
      && toFloat(FieldOf(q, MinExperienceKey).word) == FloatError(ParseQuery(q, toFloat).message)
  {
  }

  /** A key is a name followed by its one `=`. */
  predicate KeyShape(key: string) {
    key != [] && key[|key| - 1] == '=' && '=' !in key[..|key| - 1]
  }

  lemma KeysShaped()
    ensures KeyShape(SkillsKey) && KeyShape(MinExperienceKey) && KeyShape(TitleKey) && KeyShape(LocationKey)
  {
  }

  /** `s` has no `=` at or after position `from`. */
  predicate NoEqualsFrom(s: string, from: int) {
    forall j :: 0 <= from <= j < |s| ==> s[j] != '='
  }

  /** A key ending in `=` can only occur where the text has an `=`. */
  lemma KeyNeedsEquals(s: string, key: string, from: int)
    requires key != [] && key[|key| - 1] == '='
    requires 0 <= from && NoEqualsFrom(s, from)
    ensures forall j :: from <= j + |key| - 1 ==> !OccursAt(s, key, j)
  {
    forall j | from <= j + |key| - 1
      ensures !OccursAt(s, key, j)
    {
      if 0 <= j && j + |key| <= |s| {
        assert s[j..j + |key|][|key| - 1] == s[j + |key| - 1];
      }
    }
  }

  /** A command holding one key and one word: the key found first, at the start. */
  lemma SingleKeyField(key: string, w: string)
    requires KeyShape(key)
    requires w != [] && '=' !in w && forall i :: 0 <= i < |w| ==> !IsSpace(w[i])
    ensures FieldOf(key + w, key) == Word(w)
  {
    var q := key + w;
    assert OccursAt(q, key, 0);
    assert AfterFirst(q, key) == w;
    assert NoEqualsFrom(w, 0);
    KeyNeedsEquals(w, key, 0);
    assert BeforeFirst(w, key) == w;
    assert FirstWord(w).Some?;
    FirstWordAt(w);
    var n :| WordAt(w, n, FirstWord(w).value);
    assert n == 0;
  }

  /** A key ending in `=` that is longer than the single `=` of `key + w` does not occur in it. */
  lemma OtherKeyAbsent(key: string, w: string, other: string)
    requires KeyShape(key) && '=' !in w
    requires KeyShape(other) && |other| > |key|
    ensures !Contains(key + w, other)
  {
    var q := key + w;
    forall j | |key| <= j < |q|
      ensures q[j] != '='
    {
      assert q[j] == w[j - |key|];
    }
    forall j | 0 <= j < |key| - 1
      ensures q[j] != '='
    {
      assert q[j] == key[..|key| - 1][j];
    }
    KeyNeedsEquals(q, other, |key|);
    assert forall j :: 0 <= j ==> !OccursAt(q, other, j);
  }

  /** `\title=<w>` with a single word sets exactly the title filter, to that word. */
  lemma ParseTitleOnly(w: string, toFloat: string -> FloatResult)
    requires w != [] && '=' !in w && forall i :: 0 <= i < |w| ==> !IsSpace(w[i])
    ensures ParseQuery(TitleKey + w, toFloat) == Query(Filters(None, None, Some(w), None))
  {
    TitleCommandFields(w);
  }

  lemma TitleCommandFields(w: string)
    requires w != [] && '=' !in w && forall i :: 0 <= i < |w| ==> !IsSpace(w[i])
    ensures FieldOf(TitleKey + w, TitleKey) == Word(w)
    ensures FieldOf(TitleKey + w, SkillsKey).Absent? && FieldOf(TitleKey + w, MinExperienceKey).Absent?
    ensures FieldOf(TitleKey + w, LocationKey).Absent?
  {
    KeysShaped();
    SingleKeyField(TitleKey, w);
    OtherKeyAbsent(TitleKey, w, SkillsKey);
    OtherKeyAbsent(TitleKey, w, MinExperienceKey);
    OtherKeyAbsent(TitleKey, w, LocationKey);
  }

  /** `\skills=<w>` with a single word sets exactly the skills filter, to the
      word's comma-separated pieces (which `JoinSplit` joins back into the word). */
  lemma ParseSkillsOnly(w: string, toFloat: string -> FloatResult)
    requires w != [] && '=' !in w && forall i :: 0 <= i < |w| ==> !IsSpace(w[i])
    ensures ParseQuery(SkillsKey + w, toFloat) == Query(Filters(Some(Split(w, ',')), None, None, None))
  {
    SkillsCommandFields(w);
    SkillsFieldParse(w, toFloat);
  }

  lemma SkillsFieldParse(w: string, toFloat: string -> FloatResult)
    ensures ParseFields(Word(w), Absent, Absent, Absent, toFloat) == Query(Filters(Some(Split(w, ',')), None, None, None))
  {
  }

  lemma SkillsCommandFields(w: string)
    requires w != [] && '=' !in w && forall i :: 0 <= i < |w| ==> !IsSpace(w[i])
    ensures FieldOf(SkillsKey + w, SkillsKey) == Word(w)
    ensures FieldOf(SkillsKey + w, MinExperienceKey).Absent? && FieldOf(SkillsKey + w, TitleKey).Absent?
    ensures FieldOf(SkillsKey + w, LocationKey).Absent?
  {
    KeysShaped();
    SingleKeyField(SkillsKey, w);
    OtherKeyAbsent(SkillsKey, w, MinExperienceKey);
    OtherKeyAbsent(SkillsKey, w, LocationKey);
    TitleNotInSkillsCommand(w);
  }

  /** `title=` is shorter than `skills=`, so its absence needs the position of the one `=`. */
  lemma TitleNotInSkillsCommand(w: string)
    requires '=' !in w
    ensures !Contains(SkillsKey + w, TitleKey)
  {
    var q := SkillsKey + w;
    forall j | 0 <= j < |q| && j != |SkillsKey| - 1
      ensures q[j] != '='
    {
      if j >= |SkillsKey| {
        assert q[j] == w[j - |SkillsKey|];
      } else {
        assert q[j] == SkillsKey[j];
      }
    }
    forall j | 0 <= j
      ensures !OccursAt(q, TitleKey, j)
    {
      if j + |TitleKey| <= |q| {
        assert q[j..j + |TitleKey|][|TitleKey| - 1] == q[j + |TitleKey| - 1];
        if j + |TitleKey| - 1 == |SkillsKey| - 1 {
          assert q[j..j + |TitleKey|][0] == q[1] == 'k';
        }
      }
    }
  }

  /** A command whose skills key has only whitespace after it fails like
      `split()[0]` on no words, whatever else it holds. */
  lemma BlankSkillsFail(q: string, toFloat: string -> FloatResult)
    requires Contains(q, SkillsKey)
    requires var i := Find(q, SkillsKey).value;
      forall k :: i + |SkillsKey| <= k < |q| ==> IsSpace(q[k])
    ensures ParseQuery(q, toFloat) == QueryError(IndexErrorMessage)
  {
    FieldOfWordAt(q, SkillsKey);
    var i := Find(q, SkillsKey).value;
    var segment := BeforeFirst(q[i + |SkillsKey|..], SkillsKey);
    assert forall k :: 0 <= k < |segment| ==> segment[k] == q[i + |SkillsKey| + k];
  }

  /** The parsing as the source writes it: the filters are filled in key by key
      (a key that does not occur leaves its filter unset), and the first
      exception ends it. */
  method ParseFilters(q: string, toFloat: string -> FloatResult) returns (r: QueryParse)
    ensures r == ParseQuery(q, toFloat)
  {
    var filters := NoFilters;
    var skills := FieldOf(q, SkillsKey);
    if !skills.Absent? {
      if skills.Blank? {
        return QueryError(IndexErrorMessage);
      }
      filters := filters.(skills := Some(Split(skills.word, ',')));
    }
    var minExp := FieldOf(q, MinExperienceKey);
    if !minExp.Absent? {
      if minExp.Blank? {
        return QueryError(IndexErrorMessage);
      }
      var x := toFloat(minExp.word);
      if x.FloatError? {
        return QueryError(x.message);
      }
      filters := filters.(minExperience := Some(x.value));
    }
    var title := FieldOf(q, TitleKey);
    if !title.Absent? {
      if title.Blank? {
        return QueryError(IndexErrorMessage);
      }
      filters := filters.(jobTitle := Some(title.word));
    }
    var location := FieldOf(q, LocationKey);
    if !location.Absent? {
      if location.Blank? {
        return QueryError(IndexErrorMessage);
      }
      filters := filters.(location := Some(location.word));
    }
    assert ParseQuery(q, toFloat) == ParseFields(skills, minExp, title, location, toFloat);
    r := Query(filters);
  }

  /** One row of the metadata table as the command reads it. */
  datatype MetadataRow = MetadataRow(jobTitle: string, yearsExperience: int, skills: seq<string>, location: string)

  const NoRowsMessage := "No matching resumes found in database."

  /** The part of a result line before the `| Skills: ` bar: the title and the years. */
  function RowHead(r: MetadataRow): string {
    r.jobTitle + " (" + IntToString(r.yearsExperience) + " yrs) "
  }

  /** One result line: title, years, the first five skills, and the location when it is non-empty. */
  function RowLine(r: MetadataRow): string {
    RowHead(r) + "| Skills: " + Join(", ", Take(r.skills, ShownSkills))
      + (if r.location != "" then " | Location: " + r.location else "")
  }

  /** Where the line's `| Skills: ` bar sits: right after the years (a title may hold
      a `|` of its own before it). */
  function RowBar(r: MetadataRow): nat {
    |RowHead(r)|
  }

  /** Each line names the row's title first, shows at most five skills, and ends
      in the location exactly when the row has one. */
  lemma RowLineShape(r: MetadataRow)
    ensures StartsWith(RowLine(r), r.jobTitle)
    ensures |Take(r.skills, ShownSkills)| <= 5
    ensures RowBar(r) < |RowLine(r)| && RowLine(r)[RowBar(r)] == '|'
    ensures r.location != "" ==> EndsWith(RowLine(r), " | Location: " + r.location)
    ensures r.location == "" ==> EndsWith(RowLine(r), Join(", ", Take(r.skills, ShownSkills)))
    ensures StartsWith(RowLine(r)[RowBar(r)..], "| Skills: " + Join(", ", Take(r.skills, ShownSkills)))
  {
    var head, skills := RowHead(r), Join(", ", Take(r.skills, ShownSkills));
    var body := head + "| Skills: " + skills;
    var tail := if r.location != "" then " | Location: " + r.location else "";
    assert RowLine(r) == body + tail;
    assert StartsWith(RowLine(r), r.jobTitle) by {
      assert RowLine(r)[..|r.jobTitle|] == head[..|r.jobTitle|];
    }
    assert RowLine(r)[|head|] == body[|head|] == '|';
    RowSkillsAfterBar(r);
    if r.location != "" {
      SuffixOfAppend(body, tail);
    } else {
      assert RowLine(r) == body;
      SuffixOfAppend(head + "| Skills: ", skills);
    }
  }

  lemma RowSkillsAfterBar(r: MetadataRow)
    ensures StartsWith(RowLine(r)[RowBar(r)..], "| Skills: " + Join(", ", Take(r.skills, ShownSkills)))
  {
    var skills := "| Skills: " + Join(", ", Take(r.skills, ShownSkills));
    var tail := if r.location != "" then " | Location: " + r.location else "";
    assert RowLine(r) == RowHead(r) + skills + tail;
    assert RowLine(r)[RowBar(r)..] == skills + tail;
  }

  function RowLines(rows: seq<MetadataRow>): seq<string> {
    seq(|rows|, i requires 0 <= i < |rows| => RowLine(rows[i]))
  }

  /** The command's answer for the rows the database returned. */
  function FormatRows(rows: seq<MetadataRow>): string {
    if rows == [] then NoRowsMessage else Join("\n", RowLines(rows))
  }

  /** The "no rows" message is given for exactly the empty result: every result
      line holds a `|`, and the message holds none. */
  lemma FormatRowsEmpty(rows: seq<MetadataRow>)
    ensures FormatRows(rows) == NoRowsMessage <==> rows == []
  {
    if rows != [] {
      FormatRowsHasBar(rows);
      NoRowsMessageHasNoBar();
    }
  }

  lemma NoRowsMessageHasNoBar()
    ensures '|' !in NoRowsMessage
  {
  }

  lemma FormatRowsHasBar(rows: seq<MetadataRow>)
    requires rows != []
    ensures '|' in FormatRows(rows)
  {
    RowLineShape(rows[0]);
    JoinStartsWith("\n", RowLines(rows));
    assert RowLines(rows)[0] == RowLine(rows[0]);
    assert FormatRows(rows)[RowBar(rows[0])] == '|';
  }

  predicate NoNewline(s: string) { '\n' !in s }

  /** When no title, skill or location holds a newline, the answer splits back
      into one line per row, in the rows' order. */
  lemma FormatRowsLines(rows: seq<MetadataRow>)
    requires rows != []
    requires forall i :: 0 <= i < |rows| ==> NoNewline(RowLine(rows[i]))
    ensures Split(FormatRows(rows), '\n') == RowLines(rows)
  {
    SplitJoin(RowLines(rows), '\n');
  }

  /** The text of a failed command. */
  function MetadataErrorText(message: string): string {
    "\U{274C} Error processing metadata query: " + message + "\nTry format like: \\skills=python min_exp=5"
  }

  /** The answer to a backslash command: the text after the backslash, stripped,
      is parsed; a parse failure is reported, otherwise the database's first
      twenty matching rows are formatted. */
  function MetadataAnswer(input: string, toFloat: string -> FloatResult, queryDb: Filters -> seq<MetadataRow>): string
    requires IsMetadataCommand(input)
  {
    match ParseQuery(Strip(input[1..]), toFloat)
    case QueryError(m) => MetadataErrorText(m)
    case Query(f) => FormatRows(Take(queryDb(f), MetadataLimit))
  }

  /** A command that fails to parse is answered with the error text. */
  lemma MetadataFailureReported(input: string, toFloat: string -> FloatResult, queryDb: Filters -> seq<MetadataRow>)
    requires IsMetadataCommand(input) && ParseQuery(Strip(input[1..]), toFloat).QueryError?
    ensures StartsWith(MetadataAnswer(input, toFloat, queryDb), "\U{274C} Error processing metadata query: ")
  {
    ErrorTextPrefix(ParseQuery(Strip(input[1..]), toFloat).message);
  }

  lemma ErrorTextPrefix(m: string)
    ensures StartsWith(MetadataErrorText(m), "\U{274C} Error processing metadata query: ")
  {
    var prefix := "\U{274C} Error processing metadata query: ";
    assert MetadataErrorText(m) == prefix + (m + "\nTry format like: \\skills=python min_exp=5");
  }

  // ---------------------------------------------------------------------
  // Sanitising the chatbot's answer
  // ---------------------------------------------------------------------

  /** `s.replace("\n", " ").strip().replace("\"", " ").strip()`. */
  function Sanitize(s: string): (r: string)
    ensures '\n' !in r && '"' !in r
    ensures r == [] || (!IsSpace(r[0]) && !IsSpace(r[|r| - 1]))
  {
    var a := ReplaceChar(s, '\n', ' ');
    var b := Strip(a);
    var c := ReplaceChar(b, '"', ' ');
    StripKeepsChars(a);
    StripKeepsChars(c);
    Strip(c)
  }

  /** Sanitising twice is sanitising once. */
  lemma SanitizeIdempotent(s: string)
    ensures Sanitize(Sanitize(s)) == Sanitize(s)
  {
    var t := Sanitize(s);
    assert ReplaceChar(t, '\n', ' ') == t;
    StripUnchangedWhenTrimmed(t);
    assert ReplaceChar(t, '"', ' ') == t;
  }

  // ---------------------------------------------------------------------
  // One request to the analysis endpoint
  // ---------------------------------------------------------------------

  /** The outside services a request uses: the score formatter of the prompt
      context, the generative model, Python's `float()`, and the database's
      metadata query (without its limit). */
  datatype Backends = Backends(formatScore: real -> string, generate: string -> Reply,
                               toFloat: string -> FloatResult, queryDb: Filters -> seq<MetadataRow>)

  /** A request starts a session when it names none, names the empty string, or names an unknown one. */
  predicate IsNewSession(sessions: set<string>, sessionId: Option<string>) {
    sessionId.None? || sessionId.value == "" || sessionId.value !in sessions
  }

  /** The answer of one request, given the session's history with the question
      already recorded and its cached context: metadata commands go to the
      database, everything else to the chatbot, whose answer is sanitised. */
  function Response(input: string, isNew: bool, asked: seq<Message>, cached: Option<string>,
                    ranked: seq<SearchHit>, env: Backends): string
  {
    if IsMetadataCommand(input) then MetadataAnswer(input, env.toFloat, env.queryDb)
    else
      var turn := RagTurn(SearchNew(isNew, input, asked), Take(ranked, DefaultTopK));
      Sanitize(RagAnswer(input, Transcript(asked), turn, cached, env.formatScore, env.generate))
  }

  /** The chatbot's part of one request: the retrieval it runs, if any. */
  function RequestTurn(input: string, isNew: bool, asked: seq<Message>, ranked: seq<SearchHit>): RagTurn {
    RagTurn(!IsMetadataCommand(input) && SearchNew(isNew, input, asked), Take(ranked, DefaultTopK))
  }

  /** Every chatbot answer is free of newlines and double quotes, and a
      follow-up in an ongoing session answers from the cached context without
      a search. */
  lemma ResponseShape(input: string, history: seq<Message>, cached: Option<string>,
                      ranked: seq<SearchHit>, env: Backends)
    ensures !IsMetadataCommand(input) ==>
      var r := Response(input, false, history, cached, ranked, env);
      '\n' !in r && '"' !in r
    ensures (history != [] && history[|history| - 1].role == "assistant"
             && !IsMetadataCommand(input) && !AsksNewSearch(input)) ==>
      var asked := KeepLast(history + [Message("user", input)], 2 * SessionMaxHistory);
      !RequestTurn(input, false, asked, ranked).searchNew
      && Response(input, false, asked, cached, ranked, env)
         == Sanitize(ReplyText(env.generate(Prompt(Transcript(asked), input, ReusedContext(cached)))))
  {
    if history != [] && history[|history| - 1].role == "assistant" {
      FollowUpDecision(history, input);
    }
  }

  /** The server's table of conversations, keyed by session id. */
  class SessionStore {
    var sessions: map<string, ConversationManager>
    /** The conversations the table holds. */
    ghost var Repr: set<ConversationManager>

    /** Every session keeps three exchanges, and no two sessions share a conversation. */
    ghost predicate Valid()
      reads this, Repr
    {
      && (forall id :: id in sessions ==> sessions[id] in Repr)
      && (forall id :: id in sessions ==> sessions[id].maxHistory == SessionMaxHistory && sessions[id].Valid())
      && (forall a, b :: a in sessions && b in sessions && a != b ==> sessions[a] != sessions[b])
    }

    constructor ()
      ensures Valid() && sessions == map[]
    {
      sessions := map[];
      Repr := {};
    }

    /** Finds the request's session, or starts one keyed by `mintedId`, a fresh identifier. */
    method OpenSession(sessionId: Option<string>, mintedId: string) returns (sid: string, isNew: bool)
      requires Valid()
      requires mintedId !in sessions
      modifies this`sessions, this`Repr
      ensures Valid() && fresh(Repr - old(Repr))
      ensures isNew == IsNewSession(old(sessions.Keys), sessionId)
      ensures sid == (if isNew then mintedId else sessionId.value)
      ensures sessions.Keys == old(sessions.Keys) + {sid}
      ensures isNew ==> fresh(sessions[sid]) && sessions[sid].history == [] && sessions[sid].initialContext == None
      ensures forall id :: id in old(sessions) ==> sessions[id] == old(sessions[id])
    {
      isNew := IsNewSession(sessions.Keys, sessionId);
      if isNew {
        sid := mintedId;
        var started := new ConversationManager(SessionMaxHistory);
        sessions := sessions[sid := started];
        Repr := Repr + {started};
      } else {
        sid := sessionId.value;
      }
    }

    /** One request: find or start the session, then answer in it. */
    method Analyze(input: string, sessionId: Option<string>, mintedId: string,
                   index: SimilaritySearch, env: Backends)
      returns (response: string, sid: string)
      requires Valid()
      requires mintedId !in sessions
      modifies this, Repr, index`queries
      ensures Valid() && fresh(Repr - old(Repr))
      ensures var isNew := IsNewSession(old(sessions.Keys), sessionId);
        && sid == (if isNew then mintedId else sessionId.value)
        && sessions.Keys == old(sessions.Keys) + {sid}
        && (isNew ==> fresh(sessions[sid]))
        && (!isNew ==> sessions[sid] == old(sessions[sid]))
      ensures forall id :: id in old(sessions) && id != sid ==>
        sessions[id] == old(sessions[id])
        && sessions[id].history == old(sessions[id].history)
        && sessions[id].initialContext == old(sessions[id].initialContext)
      ensures var isNew := IsNewSession(old(sessions.Keys), sessionId);
        var oldHistory := if isNew then [] else old(sessions[sid].history);
        var cached := if isNew then None else old(sessions[sid].initialContext);
        var asked := KeepLast(oldHistory + [Message("user", input)], 2 * SessionMaxHistory);
        var turn := RequestTurn(input, isNew, asked, index.rank(input));
        && response == Response(input, isNew, asked, cached, index.rank(input), env)
        && sessions[sid].history == KeepLast(asked + [Message("assistant", response)], 2 * SessionMaxHistory)
        && sessions[sid].initialContext == CacheAfterTurn(cached, turn, env.formatScore)
        && index.queries == (if turn.searchNew then old(index.queries) + [input] else old(index.queries))
    {
      var isNew;
      sid, isNew := OpenSession(sessionId, mintedId);
      var conversation := sessions[sid];
      assert conversation.maxHistory == SessionMaxHistory;
      response := AnswerTurn(input, conversation, isNew, index, env,
                             if isNew then [] else old(sessions[sid].history),
                             if isNew then None else old(sessions[sid].initialContext));
    }
  }

  /** The part of a request inside its session: record the question, answer it
      (a metadata command from the database, anything else from the chatbot,
      sanitised), and record the answer. `history` and `cached` name the
      conversation's state before the turn. */
  method AnswerTurn(input: string, conversation: ConversationManager, isNew: bool,
                    index: SimilaritySearch, env: Backends, ghost history: seq<Message>, ghost cached: Option<string>)
    returns (response: string)
    requires conversation.history == history && conversation.initialContext == cached
    modifies conversation`history, conversation`initialContext, index`queries
    ensures conversation.Valid()
    ensures var asked := KeepLast(history + [Message("user", input)], 2 * conversation.maxHistory);
      var turn := RequestTurn(input, isNew, asked, index.rank(input));
      && response == Response(input, isNew, asked, cached, index.rank(input), env)
      && conversation.history == KeepLast(asked + [Message("assistant", response)], 2 * conversation.maxHistory)
      && conversation.initialContext == CacheAfterTurn(cached, turn, env.formatScore)
      && index.queries == (if turn.searchNew then old(index.queries) + [input] else old(index.queries))
  {
    conversation.AddMessage("user", input);
    var searchNew := isNew || StartsWith(input, "\\") || Contains(Lower(input), "new search")
                     || !HasAssistantMessage(conversation.history);
    if StartsWith(input, "\\") {
      response := MetadataAnswer(input, env.toFloat, env.queryDb);
    } else {
      var answer := AnswerWithRag(input, conversation, index, DefaultTopK, searchNew, env.formatScore, env.generate);
      response := Sanitize(answer);
    }
    conversation.AddMessage("assistant", response);
  }

  // ---------------------------------------------------------------------
  // Uploading a resume
  // ---------------------------------------------------------------------

  const UploadCategory := "Uploaded"
  const UploadFailedMessage := "Resume could not be chunked. Empty or invalid."
  const UploadedMessage := "\U{2705} Resume uploaded and indexed"

  datatype UploadResponse = UploadError(error: string) | Uploaded(message: string, resumeId: int, numChunks: nat)

  /** Chunks the uploaded text with the default chunker and numbers its records
      under the drawn id; `stored` is the batch handed to the database. */
  method UploadResume(text: string, drawnId: int, tokenize: string -> seq<string>,
                      embed: seq<string> -> seq<Vector>)
    returns (response: UploadResponse, stored: seq<ChunkRecord>)
    requires 1 <= drawnId <= 2000000000
    ensures response.UploadError? <==> tokenize(text) == []
    ensures response.UploadError? ==> response.error == UploadFailedMessage && stored == []
    ensures response.Uploaded? ==>
      var chunks := Chunks(tokenize(text), DefaultChunkSize, DefaultChunkSize - DefaultOverlap);
      && response == Uploaded(UploadedMessage, drawnId, |stored|)
      && |stored| == Min(|chunks|, |embed(chunks)|)
      && forall j :: 0 <= j < |stored| ==>
           stored[j] == ChunkRecord(drawnId, UploadCategory, j, chunks[j], embed(chunks)[j])
  {
    var chunker := new TextChunker(tokenize, DefaultChunkSize, DefaultOverlap);
    var chunks := chunker.ChunkText(text);
    ChunksEmpty(tokenize(text), DefaultChunkSize, DefaultChunkSize - DefaultOverlap);
    if chunks == [] {
      return UploadError(UploadFailedMessage), [];
    }
    var embeddings := embed(chunks);
    stored := BuildRecords(drawnId, UploadCategory, chunks, embeddings);
    RecordsFromShape(drawnId, UploadCategory, chunks, embeddings, 0);
    response := Uploaded(UploadedMessage, drawnId, |stored|);
  }
}
