/** The GitHub helpers: the post-processing of `gh` command output and the
    normalisation of the objects it returns, which flattens nested author and
    label objects into strings and maps comments, changed files and reviews to
    records with fixed keys.

    The `gh` process is given by its completed result, and `json.loads` by a
    function from text to a decoded value. */
module GitHub {
  import opened Wrappers
  import opened Strings
  import opened JsonValues
  import Ansi

  // ---------------------------------------------------------------------
  // Running gh

  /** What a finished `gh` process left behind. */
  datatype Completed = Completed(returncode: int, stdout: string, stderr: string)

  /** `args[:3]` */
  function Head3(args: seq<string>): (r: seq<string>)
    ensures |r| == if |args| < 3 then |args| else 3
    ensures r <= args
  {
    if |args| < 3 then args else args[..3]
  }

  /** `_gh`: a non-zero exit raises with the first three arguments and the
      stripped error output; otherwise the stripped output without colour codes. */
  function GhOutput(args: seq<string>, result: Completed): (r: Result<string>)
    ensures r.Failure? <==> result.returncode != 0
    ensures r.Failure? ==> r.error == "gh " + Join(Head3(args), " ") + "... failed: " + Strip(result.stderr)
    ensures r.Success? ==> |r.value| <= |result.stdout|
    ensures r.Success? && Ansi.Esc !in result.stdout ==> r.value == Strip(result.stdout)
  {
    if result.returncode != 0 then
      Failure("gh " + Join(Head3(args), " ") + "... failed: " + Strip(result.stderr))
    else
      var text := Strip(result.stdout);
      assert Ansi.Esc in text ==> Ansi.Esc in result.stdout by {
        TrimStartSuffix(TrimEnd(result.stdout, Whitespace), Whitespace);
        assert text == TrimEnd(result.stdout, Whitespace)[|TrimEnd(result.stdout, Whitespace)| - |text|..];
      }
      Success(Ansi.StripAnsi(text))
  }

  /** `_gh_json`: empty output stands for an empty list; anything else is decoded. */
  function GhJson(args: seq<string>, result: Completed, loads: string -> Json): (r: Result<Json>)
    ensures r.Failure? <==> result.returncode != 0
    ensures r.Success? && GhOutput(args, result).value == "" ==> r.value == JArr([])
    ensures r.Success? && GhOutput(args, result).value != "" ==> r.value == loads(GhOutput(args, result).value)
  {
    match GhOutput(args, result)
    case Failure(e) => Failure(e)
    case Success(raw) => if raw == "" then Success(JArr([])) else Success(loads(raw))
  }

  /** A successful command that printed nothing but whitespace gives an empty list. */
  lemma {:induction false} GhJsonBlank(args: seq<string>, result: Completed, loads: string -> Json)
    requires result.returncode == 0
    requires forall i | 0 <= i < |result.stdout| :: result.stdout[i] in Whitespace
    ensures GhJson(args, result, loads) == Success(JArr([]))
  {
    StripBlank(result.stdout);
  }

  // ---------------------------------------------------------------------
  // Normalising one item in place

  /** A decoded JSON object whose keys are reassigned in place. */
  class Dict {
    var fields: map<string, Json>

    constructor (fields: map<string, Json>)
      ensures this.fields == fields
    {
      this.fields := fields;
    }
  }

  /** The author rule: a dict-valued `author` becomes its `login`, or `""`
      when it has none. */
  function NormalizeAuthor(fields: map<string, Json>): (r: map<string, Json>)
    ensures r.Keys == fields.Keys
    ensures forall k | k in fields && k != "author" :: r[k] == fields[k]
    ensures "author" in fields && fields["author"].JObj? ==>
      r["author"] == Get(fields["author"].fields, "login", JStr(""))
    ensures "author" in fields && !fields["author"].JObj? ==> r["author"] == fields["author"]
  {
    if "author" in fields && fields["author"].JObj? then
      fields["author" := Get(fields["author"].fields, "login", JStr(""))]
    else fields
  }

  /** `labels` is a non-empty list whose first element is a dict. */
  predicate HasDictLabels(fields: map<string, Json>) {
    "labels" in fields && fields["labels"].JArr? && fields["labels"].items != [] && fields["labels"].items[0].JObj?
  }

  /** The index of the first element that is not a dict, or `|items|`. */
  function FirstNonObject(items: seq<Json>): (k: nat)
    ensures k <= |items|
    ensures k < |items| ==> !items[k].JObj?
    ensures forall i | 0 <= i < k :: items[i].JObj?
    decreases |items|
  {
    if items == [] then 0 else if !items[0].JObj? then 0 else 1 + FirstNonObject(items[1..])
  }

  /** `[l.get("name", "") for l in labels]`: fails at the first label that is not a dict. */
  function LabelNames(labels: seq<Json>): (r: Result<seq<Json>>)
    ensures r.Success? <==> FirstNonObject(labels) == |labels|
    ensures r.Success? ==> |r.value| == |labels|
    ensures r.Success? ==> forall i | 0 <= i < |labels| :: r.value[i] == Get(labels[i].fields, "name", JStr(""))
    ensures r.Failure? ==> r.error == NoGet(labels[FirstNonObject(labels)])
    decreases |labels|
  {
    if labels == [] then Success([])
    else if !labels[0].JObj? then Failure(NoGet(labels[0]))
    else
      match LabelNames(labels[1..])
      case Failure(e) => Failure(e)
      case Success(rest) => Success([Get(labels[0].fields, "name", JStr(""))] + rest)
  }

  /** The labels rule: a non-empty list of label dicts becomes the list of
      their names, of the same length and in the same order. */
  function NormalizeLabels(fields: map<string, Json>): (r: Result<map<string, Json>>)
    ensures !HasDictLabels(fields) ==> r == Success(fields)
    ensures HasDictLabels(fields) ==>
      var labels := fields["labels"].items;
      && (r.Success? <==> FirstNonObject(labels) == |labels|)
      && (r.Success? ==> r.value == fields["labels" := JArr(LabelNames(labels).value)])
      && (r.Failure? ==> r.error == NoGet(labels[FirstNonObject(labels)]))
  {
    if HasDictLabels(fields) then
      match LabelNames(fields["labels"].items)
      case Failure(e) => Failure(e)
      case Success(names) => Success(fields["labels" := JArr(names)])
    else Success(fields)
  }

  /** `_normalize_item` as a whole. */
  function Normalize(fields: map<string, Json>): Result<map<string, Json>> {
    NormalizeLabels(NormalizeAuthor(fields))
  }

  /** `_normalize_item`: rewrites `author` and then `labels` of `item` in
      place and returns the same item. When a later label is not a dict the
      call raises, and the author has already been rewritten. */
  method NormalizeItem(item: Dict) returns (r: Result<Dict>)
    modifies item`fields
    ensures r.Success? <==> Normalize(old(item.fields)).Success?
    ensures r.Success? ==> r.value == item && item.fields == Normalize(old(item.fields)).value
    ensures r.Failure? ==>
      r.error == Normalize(old(item.fields)).error && item.fields == NormalizeAuthor(old(item.fields))
  {
    if "author" in item.fields && item.fields["author"].JObj? {
      item.fields := item.fields["author" := Get(item.fields["author"].fields, "login", JStr(""))];
    }
    if "labels" in item.fields && item.fields["labels"].JArr? && item.fields["labels"].items != []
       && item.fields["labels"].items[0].JObj? {
      var names := LabelNames(item.fields["labels"].items);
      if names.Failure? {
        return Failure(names.error);
      }
      item.fields := item.fields["labels" := JArr(names.value)];
    }
    r := Success(item);
  }

  /** Only `author` and `labels` can change; every other key keeps its value,
      and no key is added or removed. */
  lemma {:induction false} NormalizeTouchesOnlyAuthorAndLabels(fields: map<string, Json>)
    requires Normalize(fields).Success?
    ensures Normalize(fields).value.Keys == fields.Keys
    ensures forall k | k in fields && k != "author" && k != "labels" :: Normalize(fields).value[k] == fields[k]
  {
    var a := NormalizeAuthor(fields);
    assert HasDictLabels(a) ==> Normalize(fields).value == a["labels" := JArr(LabelNames(a["labels"].items).value)];
  }

  /** On objects as `gh` writes them, where logins and label names are not
      objects themselves, normalising twice changes nothing more. */
  lemma {:induction false} NormalizeIdempotent(fields: map<string, Json>)
    requires Normalize(fields).Success?
    requires "author" in fields && fields["author"].JObj? ==>
      !Get(fields["author"].fields, "login", JStr("")).JObj?
    requires HasDictLabels(fields) ==>
      !Get(fields["labels"].items[0].fields, "name", JStr("")).JObj?
    ensures Normalize(Normalize(fields).value) == Normalize(fields)
  {
    var a := NormalizeAuthor(fields);
    var n := Normalize(fields).value;
    assert "author" in n ==> !n["author"].JObj?;
    assert NormalizeAuthor(n) == n;
    if HasDictLabels(a) {
      var names := LabelNames(a["labels"].items).value;
      assert n["labels"] == JArr(names);
      assert !names[0].JObj?;
    }
    assert !HasDictLabels(n);
  }

  // ---------------------------------------------------------------------
  // Records of comments, changed files and reviews

  datatype Shape = Comment | ChangedFile | Review

  /** The keys of each record, each with its default when the source object lacks it. */
  function Defaults(shape: Shape): map<string, Json> {
    match shape
    case Comment => map["author" := JStr(""), "body" := JStr(""), "createdAt" := JStr("")]
    case ChangedFile => map["path" := JStr(""), "additions" := JNum(0), "deletions" := JNum(0)]
    case Review => map["author" := JStr(""), "state" := JStr(""), "body" := JStr("")]
  }

  predicate HasAuthor(shape: Shape) {
    shape == Comment || shape == Review
  }

  /** The record of one element: `x.get(key, default)` for each key, except
      that the author is `x.get("author", {}).get("login", "")`. Calling
      `get` on something that is not a dict raises. */
  function Record(shape: Shape, x: Json): (r: Result<Json>)
    ensures !x.JObj? ==> r == Failure(NoGet(x))
    ensures x.JObj? && HasAuthor(shape) ==>
      var author := Get(x.fields, "author", JObj(map[]));
      && (r.Success? <==> author.JObj?)
      && (r.Failure? ==> r.error == NoGet(author))
    ensures x.JObj? && !HasAuthor(shape) ==> r.Success?
    ensures r.Success? ==> r.value.JObj? && r.value.fields.Keys == Defaults(shape).Keys
    ensures r.Success? ==> forall k | k in Defaults(shape) && k != "author" ::
      r.value.fields[k] == Get(x.fields, k, Defaults(shape)[k])
    ensures r.Success? && HasAuthor(shape) ==>
      r.value.fields["author"] == Get(Get(x.fields, "author", JObj(map[])).fields, "login", JStr(""))
  {
    if !x.JObj? then Failure(NoGet(x))
    else
      var f := x.fields;
      match shape
      case ChangedFile =>
        Success(JObj(map["path" := Get(f, "path", JStr("")), "additions" := Get(f, "additions", JNum(0)),
                         "deletions" := Get(f, "deletions", JNum(0))]))
      case Comment =>
        (match GetAttr(Get(f, "author", JObj(map[])), "login", JStr(""))
         case Failure(e) => Failure(e)
         case Success(login) =>
           Success(JObj(map["author" := login, "body" := Get(f, "body", JStr("")),
                            "createdAt" := Get(f, "createdAt", JStr(""))])))
      case Review =>
        (match GetAttr(Get(f, "author", JObj(map[])), "login", JStr(""))
         case Failure(e) => Failure(e)
         case Success(login) =>
           Success(JObj(map["author" := login, "state" := Get(f, "state", JStr("")),
                            "body" := Get(f, "body", JStr(""))])))
  }

  /** The index of the first element whose record fails, or `|items|`. */
  function FirstFailing(shape: Shape, items: seq<Json>): (k: nat)
    ensures k <= |items|
    ensures k < |items| ==> Record(shape, items[k]).Failure?
    ensures forall i | 0 <= i < k :: Record(shape, items[i]).Success?
    decreases |items|
  {
    if items == [] then 0
    else if Record(shape, items[0]).Failure? then 0
    else 1 + FirstFailing(shape, items[1..])
  }

  /** The list comprehension over a list: one record per element, in order,
      or the error of the first element that fails. */
  function MapRecords(shape: Shape, items: seq<Json>): (r: Result<seq<Json>>)
    ensures r.Success? <==> FirstFailing(shape, items) == |items|
    ensures r.Success? ==> |r.value| == |items|
    ensures r.Success? ==> forall i | 0 <= i < |items| :: r.value[i] == Record(shape, items[i]).value
    ensures r.Failure? ==> r.error == Record(shape, items[FirstFailing(shape, items)]).error
    decreases |items|
  {
    if items == [] then Success([])
    else
      match Record(shape, items[0])
      case Failure(e) => Failure(e)
      case Success(x) =>
        match MapRecords(shape, items[1..])
        case Failure(e) => Failure(e)
        case Success(rest) => Success([x] + rest)
  }

  /** Every element is a record with exactly the keys of `shape`. */
  predicate Shaped(shape: Shape, records: seq<Json>) {
    forall i | 0 <= i < |records| :: records[i].JObj? && records[i].fields.Keys == Defaults(shape).Keys
  }

  /** The comprehension over any value: a list is mapped element by element;
      iterating a string or a dict yields strings, on which `get` raises,
      unless it is empty; any other value is not iterable. */
  function Records(shape: Shape, j: Json): (r: Result<Json>)
    ensures j.JArr? ==> (r.Success? <==> MapRecords(shape, j.items).Success?)
    ensures j.JArr? && r.Success? ==> r.value == JArr(MapRecords(shape, j.items).value)
    ensures (j.JNull? || j.JBool? || j.JNum?) ==> r == Failure("'" + TypeName(j) + "' object is not iterable")
    ensures r.Success? ==> r.value.JArr? && Shaped(shape, r.value.items)
  {
    match j
    case JArr(items) =>
      (match MapRecords(shape, items)
       case Failure(e) => Failure(e)
       case Success(rs) => Success(JArr(rs)))
    case JStr(s) => if s == "" then Success(JArr([])) else Failure(NoGet(JStr("")))
    case JObj(f) => if f == map[] then Success(JArr([])) else Failure(NoGet(JStr("")))
    case _ => Failure("'" + TypeName(j) + "' object is not iterable")
  }

  /** An element with none of the keys gives a record of the defaults: the
      author of a comment or review defaults to an empty dict, whose login is `""`. */
  lemma {:induction false} RecordOfEmpty(shape: Shape)
    ensures Record(shape, JObj(map[])) == Success(JObj(Defaults(shape)))
  {
    var r := Record(shape, JObj(map[]));
    assert r.value.fields.Keys == Defaults(shape).Keys;
  }

  /** An author given as `null` is not a dict, so the record cannot be made. */
  lemma {:induction false} RecordNullAuthor(shape: Shape, x: map<string, Json>)
    requires HasAuthor(shape)
    requires "author" in x && x["author"] == JNull
    ensures Record(shape, JObj(x)) == Failure(NoGet(JNull))
  {
  }

  // ---------------------------------------------------------------------
  // Issues, pull requests and commits

  /** Replaces `key` of `d` by its records, when `d` has that key. */
  method NormalizeList(d: Dict, key: string, shape: Shape) returns (r: Result<()>)
    modifies d`fields
    ensures key !in old(d.fields) ==> r.Success? && d.fields == old(d.fields)
    ensures key in old(d.fields) ==>
      var rs := Records(shape, old(d.fields)[key]);
      && (r.Success? <==> rs.Success?)
      && (r.Success? ==> d.fields == old(d.fields)[key := rs.value])
      && (r.Failure? ==> r.error == rs.error && d.fields == old(d.fields))
  {
    if key in d.fields {
      var rs := Records(shape, d.fields[key]);
      if rs.Failure? {
        return Failure(rs.error);
      }
      d.fields := d.fields[key := rs.value];
    }
    r := Success(());
  }

  /** The value `get_issue` returns for a decoded issue: its comments as
      records, then the item normalised. */
  function IssueOf(fields: map<string, Json>): Result<map<string, Json>> {
    if "comments" in fields then
      match Records(Comment, fields["comments"])
      case Failure(e) => Failure(e)
      case Success(cs) => Normalize(fields["comments" := cs])
    else Normalize(fields)
  }

  /** The value `get_pr` returns: files, then reviews as records, then the item normalised. */
  function PullRequestOf(fields: map<string, Json>): Result<map<string, Json>> {
    var withFiles :=
      if "files" in fields then
        match Records(ChangedFile, fields["files"])
        case Failure(e) => Failure(e)
        case Success(fs) => Success(fields["files" := fs])
      else Success(fields);
    match withFiles
    case Failure(e) => Failure(e)
    case Success(f1) =>
      if "reviews" in f1 then
        match Records(Review, f1["reviews"])
        case Failure(e) => Failure(e)
        case Success(rs) => Normalize(f1["reviews" := rs])
      else Normalize(f1)
  }

  /** The error raised when the decoded output `raw` is not a dict and the
      getter tests `key in raw` for each of `keys` in turn: indexing the first
      key found fails, and when none is found `_normalize_item(raw)` fails.
      A value that is not iterable already fails at the first `in`. */
  function NotADict(keys: seq<string>, raw: Json): string
    requires !raw.JObj?
    decreases |keys|
  {
    if !(raw.JArr? || raw.JStr?) then NotIterable(raw)
    else if keys == [] then NoGet(raw)
    else if Holds(raw, keys[0]) then IndexError(raw)
    else NotADict(keys[1..], raw)
  }

  /** When the output holds one of the keys, the getter fails on indexing it. */
  lemma {:induction false} NotADictIndexes(keys: seq<string>, raw: Json, k: nat)
    requires raw.JArr? || raw.JStr?
    requires k < |keys| && Holds(raw, keys[k])
    ensures NotADict(keys, raw) == IndexError(raw)
    decreases k
  {
    if !Holds(raw, keys[0]) {
      NotADictIndexes(keys[1..], raw, k - 1);
    }
  }

  /** When the output holds none of the keys, the getter fails in `_normalize_item`. */
  lemma {:induction false} NotADictNormalises(keys: seq<string>, raw: Json)
    requires raw.JArr? || raw.JStr?
    requires forall k | 0 <= k < |keys| :: !Holds(raw, keys[k])
    ensures NotADict(keys, raw) == NoGet(raw)
    decreases |keys|
  {
    if keys != [] {
      NotADictNormalises(keys[1..], raw);
    }
  }

  /** A list holding `"reviews"` but not `"files"` passes the first test of
      `get_pr` and fails on indexing at the second. */
  lemma {:induction false} PullRequestListWithReviews()
    ensures NotADict(["files", "reviews"], JArr([JStr("reviews")])) == "list indices must be integers or slices, not str"
  {
    assert !Holds(JArr([JStr("reviews")]), "files");
    assert Holds(JArr([JStr("reviews")]), "reviews");
  }

  /** `get_issue` on the decoded output of `gh issue view`. A value that is
      not an object fails. */
  method GetIssue(raw: Json) returns (r: Result<Dict>)
    ensures raw.JObj? ==> (r.Success? <==> IssueOf(raw.fields).Success?)
    ensures raw.JObj? && r.Success? ==> fresh(r.value) && r.value.fields == IssueOf(raw.fields).value
    ensures raw.JObj? && r.Failure? ==> r.error == IssueOf(raw.fields).error
    ensures !raw.JObj? ==> r == Failure(NotADict(["comments"], raw))
  {
    if !raw.JObj? {
      return Failure(NotADict(["comments"], raw));
    }
    var issue := new Dict(raw.fields);
    var listed := NormalizeList(issue, "comments", Comment);
    if listed.Failure? {
      return Failure(listed.error);
    }
    r := NormalizeItem(issue);
  }

  /** `get_pr` on the decoded output of `gh pr view`. */
  method GetPr(raw: Json) returns (r: Result<Dict>)
    ensures raw.JObj? ==> (r.Success? <==> PullRequestOf(raw.fields).Success?)
    ensures raw.JObj? && r.Success? ==> fresh(r.value) && r.value.fields == PullRequestOf(raw.fields).value
    ensures raw.JObj? && r.Failure? ==> r.error == PullRequestOf(raw.fields).error
    ensures !raw.JObj? ==> r == Failure(NotADict(["files", "reviews"], raw))
  {
    if !raw.JObj? {
      return Failure(NotADict(["files", "reviews"], raw));
    }
    var pr := new Dict(raw.fields);
    var files := NormalizeList(pr, "files", ChangedFile);
    if files.Failure? {
      return Failure(files.error);
    }
    var reviews := NormalizeList(pr, "reviews", Review);
    if reviews.Failure? {
      return Failure(reviews.error);
    }
    r := NormalizeItem(pr);
  }

  /** The comments of an issue `get_issue` returns are records with exactly
      the keys `author`, `body` and `createdAt`. */
  lemma {:induction false} IssueCommentsShaped(fields: map<string, Json>)
    requires "comments" in fields && IssueOf(fields).Success?
    ensures var i := IssueOf(fields).value;
      "comments" in i && i["comments"].JArr? && Shaped(Comment, i["comments"].items)
  {
    var cs := Records(Comment, fields["comments"]).value;
    NormalizeTouchesOnlyAuthorAndLabels(fields["comments" := cs]);
  }

  /** The files and reviews of a pull request `get_pr` returns are records
      with exactly their fixed keys. */
  lemma {:induction false} PullRequestListsShaped(fields: map<string, Json>)
    requires PullRequestOf(fields).Success?
    ensures var p := PullRequestOf(fields).value;
      && ("files" in fields ==> "files" in p && p["files"].JArr? && Shaped(ChangedFile, p["files"].items))
      && ("reviews" in fields ==> "reviews" in p && p["reviews"].JArr? && Shaped(Review, p["reviews"].items))
  {
    var f1 := if "files" in fields then fields["files" := Records(ChangedFile, fields["files"]).value] else fields;
    var f2 := if "reviews" in f1 then f1["reviews" := Records(Review, f1["reviews"]).value] else f1;
    NormalizeTouchesOnlyAuthorAndLabels(f2);
  }

  /** The lines of `raw` that are not blank, in order. */
  function NonBlank(lines: seq<string>): (r: seq<string>)
    ensures |r| <= |lines|
    ensures forall i | 0 <= i < |r| :: Strip(r[i]) != ""
    ensures forall i | 0 <= i < |r| :: r[i] in lines
    decreases |lines|
  {
    if lines == [] then []
    else
      var rest := NonBlank(lines[1..]);
      if Strip(lines[0]) != "" then [lines[0]] + rest else rest
  }

  /** The lines `list_commits` decodes: none for empty output, otherwise the
      non-blank lines of the stripped output. */
  function CommitLines(raw: string): (r: seq<string>)
    ensures raw == "" ==> r == []
    ensures forall i | 0 <= i < |r| :: '\n' !in r[i] && Strip(r[i]) != ""
  {
    if raw == "" then [] else NonBlank(Split(Strip(raw), '\n'))
  }

  /** The first three arguments `list_commits` passes to `gh`; only they
      appear in its error message. */
  function CommitsArgs(repo: string): seq<string> {
    ["api", "repos/" + repo + "/commits", "--jq"]
  }

  /** `list_commits`: one decoded object per non-blank line of the output. */
  function ListCommits(repo: string, result: Completed, loads: string -> Json): (r: Result<seq<Json>>)
    ensures r.Failure? <==> result.returncode != 0
    ensures r.Failure? ==> r.error == GhOutput(CommitsArgs(repo), result).error
    ensures r.Success? ==>
      var lines := CommitLines(GhOutput(CommitsArgs(repo), result).value);
      |r.value| == |lines| && forall i | 0 <= i < |lines| :: r.value[i] == loads(lines[i])
  {
    match GhOutput(CommitsArgs(repo), result)
    case Failure(e) => Failure(e)
    case Success(raw) =>
      var lines := CommitLines(raw);
      Success(seq(|lines|, i requires 0 <= i < |lines| => loads(lines[i])))
  }

  /** One line is kept exactly when it is not blank. */
  lemma {:induction false} NonBlankLine(line: string)
    ensures NonBlank([line]) == if Strip(line) != "" then [line] else []
  {
    assert [line][1..] == [];
  }

  /** The filter works line by line: the kept lines of a concatenation are
      the kept lines of each part, in order. */
  lemma {:induction false} NonBlankAppend(a: seq<string>, b: seq<string>)
    ensures NonBlank(a + b) == NonBlank(a) + NonBlank(b)
    decreases |a|
  {
    if a == [] {
      assert a + b == b;
    } else {
      assert (a + b)[0] == a[0];
      assert (a + b)[1..] == a[1..] + b;
      NonBlankAppend(a[1..], b);
    }
  }

  /** A blank line is dropped and a non-blank one is kept in its place,
      wherever it stands among the others. */
  lemma {:induction false} NonBlankFilters(pre: seq<string>, line: string, post: seq<string>)
    ensures Strip(line) == "" ==> NonBlank(pre + [line] + post) == NonBlank(pre) + NonBlank(post)
    ensures Strip(line) != "" ==> NonBlank(pre + [line] + post) == NonBlank(pre) + [line] + NonBlank(post)
  {
    NonBlankAppend(pre + [line], post);
    NonBlankAppend(pre, [line]);
    NonBlankLine(line);
  }

  lemma {:induction false} NonBlankKeepsAll(lines: seq<string>)
    requires forall i | 0 <= i < |lines| :: Strip(lines[i]) != ""
    ensures NonBlank(lines) == lines
    decreases |lines|
  {
    if lines != [] {
      NonBlankKeepsAll(lines[1..]);
    }
  }

  /** Output made of JSON lines, one per commit, gives those lines back one
      for one. */
  lemma {:induction false} CommitLinesRoundTrip(lines: seq<string>)
    requires forall i | 0 <= i < |lines| ::
      && lines[i] != [] && '\n' !in lines[i]
      && lines[i][0] !in Whitespace && lines[i][|lines[i]| - 1] !in Whitespace
    ensures CommitLines(Join(lines, "\n")) == lines
  {
    if lines != [] {
      var raw := Join(lines, "\n");
      JoinEnds(lines);
      assert raw != [];
      StripTrimmed(raw);
      SplitJoin(lines, '\n');
      assert forall i | 0 <= i < |lines| :: Strip(lines[i]) != "" by {
        forall i | 0 <= i < |lines| ensures Strip(lines[i]) != "" {
          StripTrimmed(lines[i]);
        }
      }
      NonBlankKeepsAll(lines);
    }
  }

  /** A `gh` run that printed one JSON line per commit lists the decoding of
      each line, in order. */
  lemma {:induction false} ListCommitsLines(repo: string, result: Completed, loads: string -> Json, lines: seq<string>)
    requires forall i | 0 <= i < |lines| ::
      && lines[i] != [] && '\n' !in lines[i]
      && lines[i][0] !in Whitespace && lines[i][|lines[i]| - 1] !in Whitespace
    requires result.returncode == 0 && result.stdout == Join(lines, "\n") && Ansi.Esc !in result.stdout
    ensures ListCommits(repo, result, loads) == Success(seq(|lines|, i requires 0 <= i < |lines| => loads(lines[i])))
  {
    var raw := GhOutput(CommitsArgs(repo), result).value;
    if lines != [] {
      JoinEnds(lines);
      StripTrimmed(result.stdout);
    }
    assert raw == result.stdout;
    CommitLinesRoundTrip(lines);
  }

  /** A join of non-empty pieces starts with the first piece's first character
      and ends with the last piece's last character. */
  lemma {:induction false} JoinEnds(lines: seq<string>)
    requires lines != []
    requires forall i | 0 <= i < |lines| :: lines[i] != []
    ensures var s := Join(lines, "\n"); s != [] && s[0] == lines[0][0] && s[|s| - 1] == lines[|lines| - 1][|lines[|lines| - 1]| - 1]
    decreases |lines|
  {
    if |lines| > 1 {
      JoinEnds(lines[1..]);
    }
  }
}
