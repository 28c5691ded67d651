/** Clarifying questions: whatever the model answers, a small valid set comes out. */
module Clarify {
  import opened Common
  import opened Selections
  import opened Strings

  const MAX_QUESTIONS := 5
  const MAX_OPTIONS := 6

  datatype Kind = SINGLE | MULTI | TEXT

  datatype Question = Question(id: string, text: string, kind: Kind, options: seq<string>)

  // ----------------------------------------------------------------- slugs

  predicate Allowed(c: char) {
    'a' <= c <= 'z' || '0' <= c <= '9' || c == '_'
  }

  predicate AllAllowed(s: string) {
    forall i | 0 <= i < |s| :: Allowed(s[i])
  }

  /** All that is asked of the lower-casing: what a slug is made of is lower case already. */
  ghost predicate KeepsAllowed(lower: string -> string) {
    forall s :: AllAllowed(s) ==> lower(s) == s
  }

  /** Every longest run of characters that are not allowed becomes one underscore. */
  function Collapse(s: string): string {
    if s == [] then []
    else if Allowed(s[0]) then [s[0]] + Collapse(s[1..])
    else if |s| > 1 && !Allowed(s[1]) then Collapse(s[1..])
    else "_" + Collapse(s[1..])
  }

  predicate IsUnderscore(c: char) {
    c == '_'
  }

  function Slug(v: string, lower: string -> string): string {
    var core := RStrip(LStrip(Collapse(lower(Strip(v))), IsUnderscore), IsUnderscore);
    if core == [] then "q" else core
  }

  /** An id that the validator leaves alone. */
  predicate IsSlug(s: string) {
    && s != [] && s[0] != '_' && s[|s| - 1] != '_'
    && forall i | 0 <= i < |s| :: Allowed(s[i])
  }

  lemma {:induction false} CollapseAllowed(s: string)
    ensures forall i | 0 <= i < |Collapse(s)| :: Allowed(Collapse(s)[i])
    ensures (forall i | 0 <= i < |s| :: Allowed(s[i])) ==> Collapse(s) == s
  {
    if s == [] {
    } else {
      CollapseAllowed(s[1..]);
    }
  }

  lemma SlugIsSlug(v: string, lower: string -> string)
    ensures IsSlug(Slug(v, lower))
  {
    var collapsed := Collapse(lower(Strip(v)));
    var left := LStrip(collapsed, IsUnderscore);
    CollapseAllowed(lower(Strip(v)));
    LStripStops(collapsed, IsUnderscore);
    RStripStops(left, IsUnderscore);
    SubAllowed(collapsed, left);
    SubAllowed(left, RStrip(left, IsUnderscore));
    DefaultSlug();
  }

  lemma DefaultSlug()
    ensures IsSlug("q")
  {
  }

  lemma SubAllowed(s: string, part: string)
    requires (forall i | 0 <= i < |s| :: Allowed(s[i])) && forall c | c in part :: c in s
    ensures forall i | 0 <= i < |part| :: Allowed(part[i])
  {
    forall i | 0 <= i < |part| ensures Allowed(part[i]) {
      assert part[i] in s;
    }
  }

  lemma StripKeeps(s: string)
    requires IsSlug(s)
    ensures Strip(s) == s
  {
    assert !IsSpace(s[0]) && !IsSpace(s[|s| - 1]);
    StripIsPlain(s);
  }

  lemma SlugsAreKept(s: string, lower: string -> string)
    requires KeepsAllowed(lower) && IsSlug(s)
    ensures Slug(s, lower) == s
  {
    StripKeeps(s);
    assert AllAllowed(s);
    CollapseAllowed(s);
    LStripStops(s, IsUnderscore);
    RStripStops(s, IsUnderscore);
  }

  /** Validating an id twice is validating it once, and the ids that stay are the slugs. */
  lemma SlugIdempotent(v: string, lower: string -> string)
    requires KeepsAllowed(lower)
    ensures Slug(Slug(v, lower), lower) == Slug(v, lower)
    ensures Slug(v, lower) == v <==> IsSlug(v)
  {
    SlugIsSlug(v, lower);
    SlugsAreKept(Slug(v, lower), lower);
    if IsSlug(v) {
      SlugsAreKept(v, lower);
    }
  }

  /** A letter or a digit: what a slug begins and ends with. */
  predicate IsPlain(c: char) {
    Allowed(c) && c != '_'
  }

  predicate IsMark(c: char) {
    !IsPlain(c)
  }

  predicate IsGap(c: char) {
    !Allowed(c)
  }

  lemma {:induction false} CollapseSplits(a: string, b: string)
    requires a == [] || b == [] || Allowed(a[|a| - 1]) || Allowed(b[0])
    ensures Collapse(a + b) == Collapse(a) + Collapse(b)
  {
    var s := a + b;
    if a == [] {
      assert s == b && Collapse(a) == [];
    } else if b == [] {
      assert s == a;
    } else {
      assert s[1..] == a[1..] + b && s[0] == a[0];
      CollapseSplits(a[1..], b);
      if |a| == 1 {
        assert s[1] == b[0];
      }
    }
  }

  lemma {:induction false} CollapseGap(gap: string)
    requires gap != [] && All(gap, IsGap)
    ensures Collapse(gap) == "_"
  {
    if |gap| == 1 {
      assert gap[1..] == [];
    } else {
      assert !Allowed(gap[0]) && !Allowed(gap[1]);
      CollapseGap(gap[1..]);
    }
  }

  lemma {:induction false} CollapseMarks(s: string)
    requires All(s, IsMark)
    ensures All(Collapse(s), IsUnderscore)
  {
    if s == [] {
    } else {
      CollapseMarks(s[1..]);
    }
  }

  /** A gap between two words becomes one underscore, whatever it is made of, and a word
      stays as it is; with `SlugIs` this says what every slug is. */
  lemma CollapseJoins(word: string, gap: string, rest: string)
    requires word != [] && AllAllowed(word) && gap != [] && All(gap, IsGap) && rest != [] && Allowed(rest[0])
    ensures Collapse(word + gap + rest) == word + "_" + Collapse(rest)
    ensures Collapse(word) == word
  {
    CollapseAllowed(word);
    CollapseGap(gap);
    CollapseSplits(word, gap);
    CollapseSplits(word + gap, rest);
  }

  lemma CoreCollapses(left: string, core: string, right: string)
    requires All(left, IsMark) && All(right, IsMark)
    requires core != [] && IsPlain(core[0]) && IsPlain(core[|core| - 1])
    ensures Collapse(left + core + right) == Collapse(left) + (Collapse(core) + Collapse(right))
    ensures All(Collapse(left), IsUnderscore) && All(Collapse(right), IsUnderscore)
  {
    var rest := core + right;
    assert left + core + right == left + rest && rest[0] == core[0];
    CollapseSplits(left, rest);
    CollapseSplits(core, right);
    CollapseMarks(left);
    CollapseMarks(right);
  }

  lemma OnlyMarks(marks: string)
    requires All(marks, IsMark)
    ensures LStrip(Collapse(marks), IsUnderscore) == []
  {
    CollapseMarks(marks);
    assert Collapse(marks) == Collapse(marks) + [];
    LStripIs(Collapse(marks), [], IsUnderscore);
  }

  lemma StripsMarks(left: string, core: string, right: string)
    requires All(left, IsUnderscore) && All(right, IsUnderscore)
    requires core != [] && core[0] != '_' && core[|core| - 1] != '_'
    ensures RStrip(LStrip(left + (core + right), IsUnderscore), IsUnderscore) == core
  {
    assert (core + right)[0] == core[0];
    LStripIs(left, core + right, IsUnderscore);
    RStripIs(core, right, IsUnderscore);
  }

  lemma {:induction false} CollapseEnds(core: string)
    requires core != [] && IsPlain(core[|core| - 1])
    ensures Collapse(core) != [] && Collapse(core)[|Collapse(core)| - 1] == core[|core| - 1]
    ensures IsPlain(core[0]) ==> Collapse(core)[0] == core[0]
  {
    if |core| == 1 {
      assert core[1..] == [];
    } else {
      assert core[1..][|core| - 2] == core[|core| - 1];
      CollapseEnds(core[1..]);
    }
  }

  lemma CoreStays(left: string, core: string, right: string)
    requires All(left, IsMark) && All(right, IsMark)
    requires core != [] && IsPlain(core[0]) && IsPlain(core[|core| - 1])
    ensures Collapse(core) != []
    ensures RStrip(LStrip(Collapse(left + core + right), IsUnderscore), IsUnderscore) == Collapse(core)
  {
    CoreCollapses(left, core, right);
    CollapseEnds(core);
    StripsMarks(Collapse(left), Collapse(core), Collapse(right));
  }

  lemma SlugOfText(v: string, lower: string -> string, text: string)
    requires lower(Strip(v)) == text
    ensures var core := RStrip(LStrip(Collapse(text), IsUnderscore), IsUnderscore);
      Slug(v, lower) == if core == [] then "q" else core
  {
  }

  /** The slug of an id is its lower-cased text without the marks around it and with its gaps
      collapsed. */
  lemma SlugIs(v: string, lower: string -> string, left: string, core: string, right: string)
    requires All(left, IsMark) && All(right, IsMark) && lower(Strip(v)) == left + core + right
    requires core != [] && IsPlain(core[0]) && IsPlain(core[|core| - 1])
    ensures Slug(v, lower) == Collapse(core)
  {
    SlugOfText(v, lower, left + core + right);
    CoreStays(left, core, right);
  }

  /** An id of marks only gets the slug "q". */
  lemma SlugOfMarks(v: string, lower: string -> string)
    requires All(lower(Strip(v)), IsMark)
    ensures Slug(v, lower) == "q"
  {
    SlugOfText(v, lower, lower(Strip(v)));
    OnlyMarks(lower(Strip(v)));
  }

  // --------------------------------------------------------- first occurrences

  /** No earlier element has the same key. */
  predicate IsFirst<T>(xs: seq<T>, key: T -> string, i: nat)
    requires i < |xs|
  {
    forall j | 0 <= j < i :: key(xs[j]) != key(xs[i])
  }

  /** The first element of each key, in order. */
  function Firsts<T>(xs: seq<T>, key: T -> string): seq<T> {
    if xs == [] then [] else
      var n := |xs| - 1;
      Firsts(xs[..n], key) + if IsFirst(xs, key, n) then [xs[n]] else []
  }

  predicate DistinctBy<T>(xs: seq<T>, key: T -> string) {
    forall i, j | 0 <= i < j < |xs| :: key(xs[i]) != key(xs[j])
  }

  function Keys<T>(xs: seq<T>, key: T -> string): set<string> {
    set i | 0 <= i < |xs| :: key(xs[i])
  }

  lemma {:induction false} FirstsDistinct<T>(xs: seq<T>, key: T -> string)
    ensures DistinctBy(Firsts(xs, key), key)
    ensures Keys(Firsts(xs, key), key) == Keys(xs, key)
    ensures |Firsts(xs, key)| <= |xs|
    ensures xs != [] ==> Firsts(xs, key) != []
  {
    if xs == [] {
    } else {
      var n := |xs| - 1;
      var prior, last := xs[..n], xs[n];
      FirstsDistinct(prior, key);
      assert xs == prior + [last];
      AppendKeys(prior, last, key);
      var firsts := Firsts(prior, key);
      FirstIsNew(xs, key);
      if IsFirst(xs, key, n) {
        AppendKeys(firsts, last, key);
        AppendDistinct(firsts, last, key);
      } else {
        assert firsts + [] == firsts;
      }
    }
  }

  lemma FirstIsNew<T>(xs: seq<T>, key: T -> string)
    requires xs != []
    ensures var n := |xs| - 1;
      IsFirst(xs, key, n) <==> key(xs[n]) !in Keys(xs[..n], key)
  {
    var n := |xs| - 1;
    if !IsFirst(xs, key, n) {
      var j :| 0 <= j < n && key(xs[j]) == key(xs[n]);
      assert key(xs[..n][j]) in Keys(xs[..n], key);
    }
  }

  lemma AppendDistinct<T>(xs: seq<T>, x: T, key: T -> string)
    requires DistinctBy(xs, key) && key(x) !in Keys(xs, key)
    ensures DistinctBy(xs + [x], key)
  {
    forall i | 0 <= i < |xs| ensures key(xs[i]) != key(x) {
      assert key(xs[i]) in Keys(xs, key);
    }
  }

  lemma AppendKeys<T>(xs: seq<T>, x: T, key: T -> string)
    ensures Keys(xs + [x], key) == Keys(xs, key) + {key(x)}
  {
    var all := xs + [x];
    assert all[|xs|] == x;
    forall k | k in Keys(xs, key) ensures k in Keys(all, key) {
      var i :| 0 <= i < |xs| && key(xs[i]) == k;
      assert all[i] == xs[i];
    }
  }

  lemma FirstsStep<T>(xs: seq<T>, x: T, key: T -> string)
    ensures Firsts(xs + [x], key) == Firsts(xs, key) + if key(x) in Keys(Firsts(xs, key), key) then [] else [x]
  {
    var all, n := xs + [x], |xs|;
    assert all[..n] == xs;
    FirstsDistinct(xs, key);
    assert IsFirst(all, key, n) <==> key(x) !in Keys(xs, key) by {
      assert forall j | 0 <= j < n :: all[j] == xs[j];
    }
  }

  lemma FirstInPrefix<T>(xs: seq<T>, key: T -> string, n: nat, i: nat)
    requires i < n <= |xs|
    ensures IsFirst(xs[..n], key, i) <==> IsFirst(xs, key, i)
  {
    assert forall j | 0 <= j <= i :: xs[..n][j] == xs[j];
  }

  /** The positions that the duplicate filter keeps: in order, those of the elements whose key
      no earlier element has. */
  ghost predicate PicksFirsts<T>(xs: seq<T>, key: T -> string, at: seq<nat>) {
    Increasing(at, |xs|) && forall i: nat | i < |xs| :: i in at <==> IsFirst(xs, key, i)
  }

  lemma PicksNext<T>(xs: seq<T>, key: T -> string, at: seq<nat>)
    requires xs != [] && PicksFirsts(xs[..|xs| - 1], key, at)
    ensures var n := |xs| - 1;
      PicksFirsts(xs, key, if IsFirst(xs, key, n) then at + [n] else at)
  {
    var n := |xs| - 1;
    IncreasingAppend(at, n);
    assert n !in at;
    forall i: nat | i < n ensures i in at <==> IsFirst(xs, key, i) {
      FirstInPrefix(xs, key, n, i);
    }
  }

  /** `ys` are the elements at these positions. */
  ghost predicate Lists<T>(ys: seq<T>, xs: seq<T>, at: seq<nat>) {
    |ys| == |at| && forall k | 0 <= k < |at| :: at[k] < |xs| && ys[k] == xs[at[k]]
  }

  lemma ListsNext<T>(ys: seq<T>, xs: seq<T>, at: seq<nat>)
    requires xs != [] && Lists(ys, xs[..|xs| - 1], at)
    ensures Lists(ys, xs, at) && Lists(ys + [xs[|xs| - 1]], xs, at + [|xs| - 1])
  {
  }

  lemma {:induction false} FirstsAre<T>(xs: seq<T>, key: T -> string) returns (at: seq<nat>)
    ensures PicksFirsts(xs, key, at) && Lists(Firsts(xs, key), xs, at)
  {
    if xs == [] {
      at := [];
    } else {
      var n := |xs| - 1;
      var before := FirstsAre(xs[..n], key);
      PicksNext(xs, key, before);
      ListsNext(Firsts(xs[..n], key), xs, before);
      if IsFirst(xs, key, n) {
        at := before + [n];
      } else {
        at := before;
        assert Firsts(xs, key) == Firsts(xs[..n], key);
      }
    }
  }

  // --------------------------------------------------------------- options

  /** The options without surrounding space and without blanks. */
  function Cleaned(v: seq<string>): seq<string> {
    if v == [] then [] else
      var o := Strip(v[|v| - 1]);
      Cleaned(v[..|v| - 1]) + if o == [] then [] else [o]
  }

  lemma CleanedAppend(v: seq<string>, x: string)
    ensures Cleaned(v + [x]) == Cleaned(v) + if Strip(x) == [] then [] else [Strip(x)]
  {
    assert (v + [x])[..|v|] == v;
  }

  function TrimmedOptions(v: seq<string>, lower: string -> string): seq<string> {
    var out := Firsts(Cleaned(v), lower);
    if |out| > MAX_OPTIONS then out[..MAX_OPTIONS] else out
  }

  method TrimOptions(v: seq<string>, lower: string -> string) returns (options: seq<string>)
    ensures options == TrimmedOptions(v, lower)
  {
    var seen: set<string> := {};
    var out: seq<string> := [];
    for i := 0 to |v|
      invariant out == Firsts(Cleaned(v[..i]), lower)
      invariant seen == Keys(out, lower)
    {
      var o := Strip(v[i]);
      assert v[..i + 1] == v[..i] + [v[i]];
      CleanedAppend(v[..i], v[i]);
      FirstsStep(Cleaned(v[..i]), o, lower);
      assert Cleaned(v[..i]) + [] == Cleaned(v[..i]) && out + [] == out;
      if o != [] && lower(o) !in seen {
        AppendKeys(out, o, lower);
        seen := seen + {lower(o)};
        out := out + [o];
      }
    }
    assert v[..|v|] == v;
    options := if |out| > MAX_OPTIONS then out[..MAX_OPTIONS] else out;
  }

  predicate IsFilled(option: string) {
    Strip(option) != []
  }

  /** The options that are not blank, in order, stripped. */
  lemma {:induction false} CleanedAre(v: seq<string>) returns (at: seq<nat>)
    ensures Selected(v, IsFilled, Strip, Cleaned(v), at)
  {
    if v == [] {
      at := [];
    } else {
      var n := |v| - 1;
      var before := CleanedAre(v[..n]);
      SelectedNext(v[..n], v[n], IsFilled, Strip, Cleaned(v[..n]), before);
      assert v[..n] + [v[n]] == v;
      at := if IsFilled(v[n]) then before + [n] else before;
    }
  }

  /** Of these the first of each but for case, and of those the first six. */
  lemma OptionsAre(v: seq<string>, lower: string -> string)
    ensures TrimmedOptions(v, lower) <= Firsts(Cleaned(v), lower)
    ensures var n := |Firsts(Cleaned(v), lower)|;
      |TrimmedOptions(v, lower)| == if n < 6 then n else 6
  {
  }

  /** At most six options, none blank, no two the same but for case. */
  lemma OptionsAreDistinct(v: seq<string>, lower: string -> string)
    ensures |TrimmedOptions(v, lower)| <= MAX_OPTIONS && DistinctBy(TrimmedOptions(v, lower), lower)
  {
    FirstsDistinct(Cleaned(v), lower);
  }

  // ------------------------------------------------------------- questions

  /** What the validators make of a question's fields. */
  function Validated(id: string, text: string, kind: Kind, options: seq<string>, lower: string -> string): Question {
    Question(Slug(id, lower), text, kind, TrimmedOptions(options, lower))
  }

  predicate ValidQuestion(q: Question, lower: string -> string) {
    IsSlug(q.id) && |q.options| <= MAX_OPTIONS && DistinctBy(q.options, lower)
  }

  lemma ValidatedIsValid(id: string, text: string, kind: Kind, options: seq<string>, lower: string -> string)
    ensures ValidQuestion(Validated(id, text, kind, options, lower), lower)
  {
    SlugIsSlug(id, lower);
    OptionsAreDistinct(options, lower);
  }

  /** One entry of the model's `questions`: not an object, an object that validation
      rejects, or the fields of one whose types and kind are right. */
  datatype Item = NotObject | BadTypes | Fields(id: string, text: string, kind: Kind, options: seq<string>)

  /** What the model call gives: nothing, no JSON object with a list, or a list. */
  datatype Reply = Raised | Garbage | Items(items: seq<Item>)

  predicate Accepted(item: Item) {
    item.NotObject? || (item.Fields? && 1 <= |item.id| <= 64 && item.text != [])
  }

  /** The question of an entry, if it is an object. */
  function QuestionOf(item: Item, lower: string -> string): seq<Question> {
    if item.Fields? then [Validated(item.id, item.text, item.kind, item.options, lower)] else []
  }

  function Questions(items: seq<Item>, lower: string -> string): seq<Question> {
    if items == [] then [] else Questions(items[..|items| - 1], lower) + QuestionOf(items[|items| - 1], lower)
  }

  lemma QuestionsAppend(items: seq<Item>, item: Item, lower: string -> string)
    ensures Questions(items + [item], lower) == Questions(items, lower) + QuestionOf(item, lower)
  {
    assert (items + [item])[..|items|] == items;
  }

  predicate IsObject(item: Item) {
    item.Fields?
  }

  /** The text and the kind as given, the id and the options as validation leaves them. */
  ghost predicate IsQuestionOf(q: Question, item: Item, lower: string -> string) {
    && item.Fields? && q.text == item.text && q.kind == item.kind
    && q.id == Slug(item.id, lower) && q.options == TrimmedOptions(item.options, lower)
  }

  ghost predicate AreQuestionsOf(qs: seq<Question>, objects: seq<Item>, lower: string -> string) {
    |qs| == |objects| && forall k | 0 <= k < |qs| :: IsQuestionOf(qs[k], objects[k], lower)
  }

  lemma MoreQuestions(qs: seq<Question>, objects: seq<Item>, item: Item, lower: string -> string)
    requires AreQuestionsOf(qs, objects, lower)
    ensures if item.Fields? then AreQuestionsOf(qs + QuestionOf(item, lower), objects + [item], lower)
            else qs + QuestionOf(item, lower) == qs
  {
    if item.Fields? {
      assert IsQuestionOf(QuestionOf(item, lower)[0], item, lower);
    }
  }

  /** The questions are those of the objects, in order. */
  lemma {:induction false} QuestionsAre(items: seq<Item>, lower: string -> string)
    returns (objects: seq<Item>, at: seq<nat>)
    ensures Selected(items, IsObject, Same, objects, at)
    ensures AreQuestionsOf(Questions(items, lower), objects, lower)
  {
    if items == [] {
      objects, at := [], [];
    } else {
      var n := |items| - 1;
      var us, before := QuestionsAre(items[..n], lower);
      SelectedNext(items[..n], items[n], IsObject, Same, us, before);
      assert items[..n] + [items[n]] == items;
      MoreQuestions(Questions(items[..n], lower), us, items[n], lower);
      objects := if IsObject(items[n]) then us + [items[n]] else us;
      at := if IsObject(items[n]) then before + [n] else before;
    }
  }

  function QuestionId(q: Question): string {
    q.id
  }

  /** The first `n` elements, or all of them. */
  function Upto<T>(xs: seq<T>, n: nat): (first: seq<T>)
    ensures first <= xs && |first| <= n && (first != xs ==> |first| == n)
  {
    if |xs| > n then xs[..n] else xs
  }

  /** Building a question runs its validators. */
  method Construct(item: Item, lower: string -> string) returns (q: Question)
    requires item.Fields?
    ensures QuestionOf(item, lower) == [q]
  {
    var options := TrimOptions(item.options, lower);
    q := Question(Slug(item.id, lower), item.text, item.kind, options);
  }

  predicate AllAccepted(items: seq<Item>) {
    forall i | 0 <= i < |items| :: Accepted(items[i])
  }

  lemma CollectNext(items: seq<Item>, i: nat, lower: string -> string)
    requires i < |items| && AllAccepted(items[..i])
    ensures Accepted(items[i]) ==> AllAccepted(items[..i + 1])
    ensures Questions(items[..i + 1], lower)
      == if items[i].Fields? then Questions(items[..i], lower) + QuestionOf(items[i], lower)
         else Questions(items[..i], lower)
  {
    assert items[..i + 1] == items[..i] + [items[i]];
    QuestionsAppend(items[..i], items[i], lower);
  }

  /** An object is rejected for a wrong type or kind, an empty text, or an id that is empty or
      longer than 64 characters. */
  lemma RejectedIff(item: Item)
    ensures !Accepted(item) <==>
      item.BadTypes? || (item.Fields? && (|item.text| == 0 || |item.id| == 0 || |item.id| > 64))
  {
  }

  /** The first loop of the parser: one rejected object raises. */
  method Collect(items: seq<Item>, lower: string -> string) returns (questions: Option<seq<Question>>)
    ensures questions == if AllAccepted(items) then Some(Questions(items, lower)) else None
  {
    var qs: seq<Question> := [];
    for i := 0 to |items|
      invariant AllAccepted(items[..i]) && qs == Questions(items[..i], lower)
    {
      if !Accepted(items[i]) {
        return None;
      }
      CollectNext(items, i, lower);
      if items[i].Fields? {
        var q := Construct(items[i], lower);
        qs := qs + [q];
      }
    }
    assert items[..|items|] == items;
    questions := Some(qs);
  }

  /** The validated questions of the model, or None when parsing raises. */
  method ParseLlm(reply: Reply, maxQuestions: nat, lower: string -> string)
    returns (parsed: Option<seq<Question>>)
    ensures parsed == if reply.Items? && AllAccepted(reply.items)
                      then Some(Upto(Firsts(Questions(reply.items, lower), QuestionId), maxQuestions)) else None
  {
    if !reply.Items? {
      return None;
    }
    var questions := Collect(reply.items, lower);
    if questions.None? {
      return None;
    }
    var unique := KeepFirst(questions.value);
    parsed := Some(Upto(unique, maxQuestions));
  }

  /** The duplicate filter of the parser. */
  method KeepFirst(questions: seq<Question>) returns (unique: seq<Question>)
    ensures unique == Firsts(questions, QuestionId)
  {
    var seen: set<string> := {};
    unique := [];
    for i := 0 to |questions|
      invariant unique == Firsts(questions[..i], QuestionId)
      invariant seen == Keys(unique, QuestionId)
    {
      var q := questions[i];
      assert questions[..i + 1] == questions[..i] + [q];
      FirstsStep(questions[..i], q, QuestionId);
      if q.id !in seen {
        AppendKeys(unique, q, QuestionId);
        seen := seen + {q.id};
        unique := unique + [q];
      }
    }
    assert questions[..|questions|] == questions;
  }

  // ------------------------------------------------------------- defaults

  /** What the context already tells, to suppress redundant questions. */
  datatype Context = Context(ecommerce: bool, storeName: bool, color: bool, tone: bool, productNames: seq<string>)

  /** A JSON value as the code reads it: a string, a value that counts as false, or another. */
  datatype Field = Text(text: string) | Falsy | Other

  /** What the request says about the shop: the fields that are read, the colours in the order
      in which they are. */
  datatype Info = Info(industry: string, name: Field, storeName: Field, tone: Field, vibe: Field,
                       colors: seq<Field>, products: seq<Field>)

  /** `a or b`. */
  function Either(a: Field, b: Field): Field {
    if a.Other? || (a.Text? && a.text != "") then a else b
  }

  /** `(f or "").strip()`, which raises on what is neither a string nor false. */
  function Stripped(f: Field): Option<string> {
    match f
    case Text(text) => Some(Strip(text))
    case Falsy => Some("")
    case Other => None
  }

  /** Whether some field has text; the first one that does ends the search. */
  function AnyText(fs: seq<Field>): Option<bool> {
    if fs == [] then Some(false)
    else
      var first := Stripped(fs[0]);
      if first.None? then None else if first.value != "" then Some(true) else AnyText(fs[1..])
  }

  function ProductNames(fs: seq<Field>): Option<seq<string>> {
    if fs == [] then Some([])
    else
      var n := |fs| - 1;
      var rest, last := ProductNames(fs[..n]), Stripped(fs[n]);
      if rest.None? || last.None? then None
      else Some(rest.value + if last.value == "" then [] else [last.value])
  }

  predicate IsEcommerce(industry: string, lower: string -> string) {
    lower(industry) in {"ecommerce", "e-commerce", "restaurant"}
  }

  /** What the defaults know, or None when reading it raises. Other industries read nothing. */
  function ReadContext(info: Info, lower: string -> string): Option<Context> {
    if !IsEcommerce(info.industry, lower) then Some(Context(false, false, false, false, []))
    else
      var color := AnyText(info.colors);
      var name, tone := Stripped(Either(info.name, info.storeName)), Stripped(Either(info.tone, info.vibe));
      var products := ProductNames(info.products);
      if color.None? || name.None? || tone.None? || products.None? then None
      else Some(Context(true, name.value != "", color.value, tone.value != "", products.value))
  }

  predicate HasOther(fs: seq<Field>) {
    exists i :: 0 <= i < |fs| && fs[i].Other?
  }

  predicate BlankUpTo(fs: seq<Field>, i: nat)
    requires i <= |fs|
  {
    forall j | 0 <= j < i :: Stripped(fs[j]) == Some("")
  }

  /** The colour that the search stops at is no string. */
  predicate ColorsRaise(fs: seq<Field>) {
    exists i :: 0 <= i < |fs| && fs[i].Other? && BlankUpTo(fs, i)
  }

  /** A field that the defaults consult is neither a string nor false. */
  predicate Raises(info: Info, lower: string -> string) {
    && IsEcommerce(info.industry, lower)
    && (ColorsRaise(info.colors) || Either(info.name, info.storeName).Other?
        || Either(info.tone, info.vibe).Other? || HasOther(info.products))
  }

  lemma {:induction false} AnyTextRaisesIff(fs: seq<Field>)
    ensures AnyText(fs).None? <==> ColorsRaise(fs)
  {
    if fs == [] {
    } else {
      var rest := fs[1..];
      AnyTextRaisesIff(rest);
      if i :| 0 <= i < |fs| && fs[i].Other? && BlankUpTo(fs, i) {
        if i > 0 {
          assert Stripped(fs[0]) == Some("") && rest[i - 1].Other?;
          assert forall j | 0 <= j < i - 1 :: rest[j] == fs[j + 1];
          assert BlankUpTo(rest, i - 1);
        }
      }
      if fs[0].Other? {
        assert BlankUpTo(fs, 0);
      }
      if Stripped(fs[0]) == Some("") && ColorsRaise(rest) {
        var k :| 0 <= k < |rest| && rest[k].Other? && BlankUpTo(rest, k);
        forall j | 0 <= j < k + 1 ensures Stripped(fs[j]) == Some("") {
          assert j > 0 ==> rest[j - 1] == fs[j];
        }
        assert fs[k + 1].Other? && BlankUpTo(fs, k + 1);
      }
    }
  }

  lemma {:induction false} ProductNamesRaiseIff(fs: seq<Field>)
    ensures ProductNames(fs).None? <==> HasOther(fs)
  {
    if fs == [] {
    } else {
      var n := |fs| - 1;
      ProductNamesRaiseIff(fs[..n]);
      if i :| 0 <= i < |fs| && fs[i].Other? {
        assert i < n ==> fs[..n][i].Other?;
      }
      if i :| 0 <= i < n && fs[..n][i].Other? {
        assert fs[i].Other?;
      }
    }
  }

  /** Reading the context raises exactly then. */
  lemma ReadRaisesIff(info: Info, lower: string -> string)
    ensures ReadContext(info, lower).None? <==> Raises(info, lower)
  {
    AnyTextRaisesIff(info.colors);
    ProductNamesRaiseIff(info.products);
  }

  predicate HasText(f: Field) {
    f.Text? && Strip(f.text) != ""
  }

  lemma {:induction false} AnyTextIff(fs: seq<Field>)
    requires AnyText(fs).Some?
    ensures AnyText(fs).value <==> exists i :: 0 <= i < |fs| && HasText(fs[i])
  {
    if fs == [] {
    } else if Stripped(fs[0]).value != "" {
      assert HasText(fs[0]);
    } else {
      var rest := fs[1..];
      AnyTextIff(rest);
      if i :| 0 <= i < |rest| && HasText(rest[i]) {
        assert HasText(fs[i + 1]);
      }
      if i :| 0 <= i < |fs| && HasText(fs[i]) {
        assert HasText(rest[i - 1]);
      }
    }
  }

  function TextOf(f: Field): string {
    if f.Text? then Strip(f.text) else ""
  }

  /** The product names are those that have text, in order, stripped. */
  lemma {:induction false} ProductNamesAre(fs: seq<Field>) returns (at: seq<nat>)
    requires ProductNames(fs).Some?
    ensures Selected(fs, HasText, TextOf, ProductNames(fs).value, at)
  {
    if fs == [] {
      at := [];
    } else {
      var n := |fs| - 1;
      var before := ProductNamesAre(fs[..n]);
      SelectedNext(fs[..n], fs[n], HasText, TextOf, ProductNames(fs[..n]).value, before);
      assert fs[..n] + [fs[n]] == fs;
      assert HasText(fs[n]) <==> Stripped(fs[n]).value != "";
      assert ProductNames(fs[..n]).value + [] == ProductNames(fs[..n]).value;
      at := if HasText(fs[n]) then before + [n] else before;
    }
  }

  /** What the defaults know: only a shop is asked for what is missing, a name or a tone counts
      when the first truthy of its two fields has text, a colour when any has. */
  lemma ContextTells(info: Info, lower: string -> string)
    requires ReadContext(info, lower).Some?
    ensures var c := ReadContext(info, lower).value;
      && (c.ecommerce <==> lower(info.industry) in {"ecommerce", "e-commerce", "restaurant"})
      && (c.ecommerce ==>
            && (c.storeName <==> HasText(if info.name in {Falsy, Text("")} then info.storeName else info.name))
            && (c.tone <==> HasText(if info.tone in {Falsy, Text("")} then info.vibe else info.tone))
            && (c.color <==> exists i :: 0 <= i < |info.colors| && HasText(info.colors[i]))
            && Some(c.productNames) == ProductNames(info.products))
  {
    if IsEcommerce(info.industry, lower) {
      AnyTextIff(info.colors);
    }
  }

  const PALETTES := ["Clean & minimal (black / white / one accent)", "Warm & earthy (terracotta, cream)",
                     "Bold & vibrant (saturated, high-contrast)", "Premium & dark (charcoal, gold accent)"]
  const VIBES := ["Minimal", "Playful", "Premium / luxury", "Friendly & approachable"]
  const LAUNCH := ["Get selling fast (simple, conversion-focused)", "Showcase the brand story (rich visuals)",
                   "Wide catalog browsing (filters, categories)"]

  function When(asked: bool, item: Item): seq<Item> {
    if asked then [item] else []
  }

  function Ask(id: string, text: string, kind: Kind, options: seq<string>): Item {
    Fields(id, text, kind, options)
  }

  function Featured(c: Context): Item {
    Ask("featured", "Which products should we feature on the homepage?", MULTI, Upto(c.productNames, 6))
  }

  const STORE_NAME := Ask("store_name", "What should we call your store?", TEXT, [])
  const PALETTE := Ask("palette", "Which color direction fits your brand best?", SINGLE, PALETTES)
  const VIBE := Ask("vibe", "What overall vibe should the storefront have?", SINGLE, VIBES)
  const PRIORITY := Ask("priority", "What matters most for launch?", SINGLE, LAUNCH)

  /** The questions about what a shop has not told. */
  function MissingItems(c: Context): seq<Item> {
    When(!c.storeName, STORE_NAME) + When(!c.color, PALETTE) + When(!c.tone, VIBE)
  }

  function EcommerceItems(c: Context): seq<Item> {
    MissingItems(c) + When(c.productNames != [], Featured(c)) + When(true, PRIORITY)
  }

  const APP_NAME := Ask("app_name", "What should we call this app?", TEXT, [])
  const USERS := Ask("users", "Who will use this app?", SINGLE,
                     ["Just me (personal / internal tool)", "My team (small group of known users)",
                      "Customers / the public (open to anyone)"])
  const FIRST_VERSION := Ask("priority", "What matters most for the first version?", SINGLE,
                             ["Working core features, shipped fast", "Clean UI and user experience",
                              "Data accuracy and reliability", "Easy for non-technical users"])
  const EXISTING_DATA := Ask("existing_data", "Does this app need to connect to existing data or systems?", SINGLE,
                             ["No — start fresh", "Yes — I'll describe in the next field"])

  function GeneralItems(): seq<Item> {
    When(true, APP_NAME) + When(true, USERS) + When(true, FIRST_VERSION) + When(true, EXISTING_DATA)
  }

  function DefaultItems(c: Context): seq<Item> {
    if c.ecommerce then EcommerceItems(c) else GeneralItems()
  }

  /** A shop is asked for its name, colours and tone exactly when they are missing, which
      products to feature when there are any, and always what matters most, in this order. */
  lemma ShopIsAsked(c: Context)
    requires c.ecommerce
    ensures var name, color := if c.storeName then [] else ["store_name"], if c.color then [] else ["palette"];
      var tone, featured := if c.tone then [] else ["vibe"], if c.productNames == [] then [] else ["featured"];
      Ids(DefaultItems(c)) == name + color + tone + featured + ["priority"]
    ensures c.productNames != [] ==> Featured(c) in DefaultItems(c) && Featured(c).options == Upto(c.productNames, 6)
  {
    var featured := When(c.productNames != [], Featured(c));
    MissingIds(c);
    IdsAppend(MissingItems(c), featured);
    IdsAppend(MissingItems(c) + featured, [PRIORITY]);
    assert DefaultItems(c) == MissingItems(c) + featured + [PRIORITY];
    assert c.productNames != [] ==> Featured(c) in featured;
  }

  lemma MissingIds(c: Context)
    ensures var name, color := if c.storeName then [] else ["store_name"], if c.color then [] else ["palette"];
      Ids(MissingItems(c)) == name + color + if c.tone then [] else ["vibe"]
  {
    var a, b := When(!c.storeName, STORE_NAME), When(!c.color, PALETTE);
    IdsAppend(a, b);
    IdsAppend(a + b, When(!c.tone, VIBE));
  }

  /** Any other app is asked the same four questions. */
  lemma AppIsAsked(c: Context)
    requires !c.ecommerce
    ensures Ids(DefaultItems(c)) == ["app_name", "users", "priority", "existing_data"]
  {
  }

  function Ids(items: seq<Item>): (ids: seq<string>)
    ensures |ids| == |items|
  {
    seq(|items|, i requires 0 <= i < |items| => ItemId(items[i]))
  }

  lemma IdsAppend(a: seq<Item>, b: seq<Item>)
    ensures Ids(a + b) == Ids(a) + Ids(b)
  {
  }

  /** The defaults pass the same validators as the model's questions. */
  function DefaultQuestions(c: Context, maxQuestions: nat, lower: string -> string): seq<Question> {
    Upto(Questions(DefaultItems(c), lower), maxQuestions)
  }

  function Clamp(maxQuestions: int): (n: nat)
    ensures 1 <= n <= MAX_QUESTIONS
    ensures 1 <= maxQuestions <= 5 ==> n == maxQuestions
    ensures maxQuestions > 5 ==> n == 5
    ensures maxQuestions < 1 ==> n == 1
  {
    Max(1, if maxQuestions < MAX_QUESTIONS then maxQuestions else MAX_QUESTIONS)
  }

  /** A set of questions the popup can show. */
  ghost predicate Presentable(qs: seq<Question>, lower: string -> string) {
    DistinctBy(qs, QuestionId) && forall q | q in qs :: ValidQuestion(q, lower)
  }

  lemma {:induction false} QuestionsAreValid(items: seq<Item>, lower: string -> string)
    ensures forall q | q in Questions(items, lower) :: ValidQuestion(q, lower)
  {
    if items == [] {
    } else {
      QuestionsAreValid(items[..|items| - 1], lower);
      var item := items[|items| - 1];
      if item.Fields? {
        ValidatedIsValid(item.id, item.text, item.kind, item.options, lower);
      }
    }
  }

  lemma {:induction false} FirstsAmong<T>(xs: seq<T>, key: T -> string)
    ensures forall x | x in Firsts(xs, key) :: x in xs
  {
    if xs == [] {
    } else {
      FirstsAmong(xs[..|xs| - 1], key);
    }
  }

  lemma UptoPresentable(qs: seq<Question>, n: nat, lower: string -> string)
    requires Presentable(qs, lower)
    ensures Presentable(Upto(qs, n), lower) && |Upto(qs, n)| <= n
    ensures qs != [] && n >= 1 ==> 1 <= |Upto(qs, n)|
  {
  }

  predicate IsSlugItem(item: Item) {
    item.Fields? && Accepted(item) && IsSlug(item.id)
  }

  function ItemId(item: Item): string {
    if item.Fields? then item.id else ""
  }

  predicate AllFields(items: seq<Item>) {
    forall i | 0 <= i < |items| :: items[i].Fields?
  }

  lemma {:induction false} AllAreQuestions(items: seq<Item>, lower: string -> string)
    requires AllFields(items)
    ensures AreQuestionsOf(Questions(items, lower), items, lower)
  {
    if items == [] {
    } else {
      var n := |items| - 1;
      AllAreQuestions(items[..n], lower);
      MoreQuestions(Questions(items[..n], lower), items[..n], items[n], lower);
      assert items[..n] + [items[n]] == items;
    }
  }

  /** Entries with distinct ids that validation keeps. */
  ghost predicate Sound(items: seq<Item>) {
    DistinctBy(items, ItemId) && forall i | 0 <= i < |items| :: IsSlugItem(items[i])
  }

  lemma SoundWhen(items: seq<Item>, asked: bool, item: Item, ids: set<string>)
    requires Sound(items) && IsSlugItem(item) && ItemId(item) !in ids
    requires forall i | 0 <= i < |items| :: ItemId(items[i]) in ids
    ensures Sound(items + When(asked, item))
    ensures forall i | 0 <= i < |items + When(asked, item)| ::
      ItemId((items + When(asked, item))[i]) in ids + {ItemId(item)}
  {
  }

  lemma DefaultIdsAreSlugs()
    ensures IsSlug("store_name") && IsSlug("palette") && IsSlug("vibe") && IsSlug("featured")
    ensures IsSlug("priority") && IsSlug("app_name") && IsSlug("users") && IsSlug("existing_data")
  {
  }

  lemma DefaultIdsDiffer()
    ensures "featured" != "priority" && "app_name" != "priority"
  {
    assert "featured"[0] != "priority"[0] && "app_name"[0] != "priority"[0];
  }

  lemma NewIds()
    ensures "featured" !in {"store_name", "palette", "vibe"}
    ensures "priority" !in {"store_name", "palette", "vibe"} + {"featured"}
  {
    DefaultIdsDiffer();
    assert |"featured"| == 8 && |"priority"| == 8 && |"store_name"| == 10 && |"palette"| == 7 && |"vibe"| == 4;
  }

  lemma EcommerceSound(c: Context)
    ensures Sound(EcommerceItems(c)) && EcommerceItems(c) != []
  {
    DefaultIdsAreSlugs();
    NewIds();
    MissingSound(c);
    LastTwoSound(MissingItems(c), c, {"store_name", "palette", "vibe"});
  }

  lemma LastTwoSound(missing: seq<Item>, c: Context, ids: set<string>)
    requires Sound(missing) && forall i | 0 <= i < |missing| :: ItemId(missing[i]) in ids
    requires "featured" !in ids && "priority" !in ids + {"featured"}
    requires IsSlug("featured") && IsSlug("priority")
    ensures Sound(missing + When(c.productNames != [], Featured(c)) + When(true, PRIORITY))
  {
    SoundWhen(missing, c.productNames != [], Featured(c), ids);
    SoundWhen(missing + When(c.productNames != [], Featured(c)), true, PRIORITY, ids + {"featured"});
  }

  lemma MissingSound(c: Context)
    ensures Sound(MissingItems(c))
    ensures forall i | 0 <= i < |MissingItems(c)| :: ItemId(MissingItems(c)[i]) in {"store_name", "palette", "vibe"}
  {
    DefaultIdsAreSlugs();
    var a := When(!c.storeName, STORE_NAME);
    SoundWhen([], !c.storeName, STORE_NAME, {});
    assert [] + a == a;
    SoundWhen(a, !c.color, PALETTE, {"store_name"});
    SoundWhen(a + When(!c.color, PALETTE), !c.tone, VIBE, {"store_name", "palette"});
  }

  lemma GeneralSound()
    ensures Sound(GeneralItems()) && GeneralItems() != []
  {
    DefaultIdsAreSlugs();
    DefaultIdsDiffer();
    var a := When(true, APP_NAME);
    SoundWhen([], true, APP_NAME, {});
    assert [] + a == a;
    SoundWhen(a, true, USERS, {"app_name"});
    var b := a + When(true, USERS);
    SoundWhen(b, true, FIRST_VERSION, {"app_name", "users"});
    SoundWhen(b + When(true, FIRST_VERSION), true, EXISTING_DATA, {"app_name", "users", "priority"});
  }

  lemma SoundPresentable(items: seq<Item>, lower: string -> string)
    requires KeepsAllowed(lower) && items != [] && Sound(items)
    ensures Presentable(Questions(items, lower), lower) && |Questions(items, lower)| == |items|
  {
    IdKept(items, 0, lower);
    QuestionsAreValid(items, lower);
    KeptIdsDistinct(items, lower);
  }

  lemma SoundItems(items: seq<Item>, n: nat, lower: string -> string)
    requires KeepsAllowed(lower) && n >= 1 && items != [] && Sound(items)
    ensures Presentable(Upto(Questions(items, lower), n), lower) && 1 <= |Upto(Questions(items, lower), n)| <= n
  {
    SoundPresentable(items, lower);
    UptoPresentable(Questions(items, lower), n, lower);
  }

  lemma DefaultsArePresentable(c: Context, n: nat, lower: string -> string)
    requires KeepsAllowed(lower) && n >= 1
    ensures var qs := DefaultQuestions(c, n, lower);
      Presentable(qs, lower) && 1 <= |qs| <= n
  {
    EcommerceSound(c);
    GeneralSound();
    SoundItems(DefaultItems(c), n, lower);
  }

  /** Validation keeps the id of a sound entry. */
  lemma IdKept(items: seq<Item>, i: nat, lower: string -> string)
    requires KeepsAllowed(lower) && Sound(items) && i < |items|
    ensures |Questions(items, lower)| == |items| && Questions(items, lower)[i].id == ItemId(items[i])
  {
    AllAreQuestions(items, lower);
    assert IsQuestionOf(Questions(items, lower)[i], items[i], lower);
    SlugsAreKept(items[i].id, lower);
  }

  /** The first `n` of these entries as questions, under the same ids. */
  ghost predicate AsksFirst(qs: seq<Question>, items: seq<Item>, n: nat, lower: string -> string) {
    && |qs| == (if n < |items| then n else |items|)
    && forall k | 0 <= k < |qs| :: IsQuestionOf(qs[k], items[k], lower) && qs[k].id == ItemId(items[k])
  }

  lemma SoundAreAsked(items: seq<Item>, n: nat, lower: string -> string)
    requires KeepsAllowed(lower) && Sound(items)
    ensures AsksFirst(Upto(Questions(items, lower), n), items, n, lower)
  {
    AllAreQuestions(items, lower);
    var qs := Upto(Questions(items, lower), n);
    forall k | 0 <= k < |qs| ensures IsQuestionOf(qs[k], items[k], lower) && qs[k].id == ItemId(items[k]) {
      IdKept(items, k, lower);
      assert IsQuestionOf(Questions(items, lower)[k], items[k], lower);
    }
  }

  lemma DefaultItemsSound(c: Context)
    ensures Sound(DefaultItems(c))
  {
    EcommerceSound(c);
    GeneralSound();
  }

  /** The defaults are the entries for what the context leaves open, up to the cap. */
  lemma DefaultsAsk(c: Context, n: nat, lower: string -> string)
    requires KeepsAllowed(lower)
    ensures AsksFirst(DefaultQuestions(c, n, lower), DefaultItems(c), n, lower)
  {
    DefaultItemsSound(c);
    SoundAreAsked(DefaultItems(c), n, lower);
  }

  lemma KeptIdsDistinct(items: seq<Item>, lower: string -> string)
    requires KeepsAllowed(lower) && Sound(items)
    ensures DistinctBy(Questions(items, lower), QuestionId)
  {
    var qs := Questions(items, lower);
    forall i, j | 0 <= i < j < |qs| ensures QuestionId(qs[i]) != QuestionId(qs[j]) {
      if items != [] {
        IdKept(items, 0, lower);
      }
      IdKept(items, i, lower);
      IdKept(items, j, lower);
    }
  }

  lemma AskedArePresentable(items: seq<Item>, n: nat, lower: string -> string)
    requires n >= 1
    ensures var qs := Upto(Firsts(Questions(items, lower), QuestionId), n);
      Presentable(qs, lower) && |qs| <= n && (qs == [] <==> Questions(items, lower) == [])
  {
    var asked := Questions(items, lower);
    FirstsDistinct(asked, QuestionId);
    FirstsAmong(asked, QuestionId);
    QuestionsAreValid(items, lower);
    UptoPresentable(Firsts(asked, QuestionId), n, lower);
  }

  /** The model's questions can be used: it was asked, which takes a prompt with the product
      names, and gave at least one question and nothing that validation rejects. */
  predicate Usable(llm: Option<Reply>, products: seq<Field>, lower: string -> string) {
    && llm.Some? && !HasOther(products)
    && llm.value.Items? && AllAccepted(llm.value.items) && Questions(llm.value.items, lower) != []
  }

  /** Whatever the model does: nothing is asked on a detailed prompt; otherwise between one
      and `Clamp(maxQuestions)` valid questions with distinct ids, the model's first of each
      id when they can be used and the defaults when not. Only reading the context for the
      defaults can raise, and exactly then None is returned. */
  method GenerateQuestions(detailed: bool, info: Info, llm: Option<Reply>, maxQuestions: int, lower: string -> string)
    returns (qs: Option<seq<Question>>)
    requires KeepsAllowed(lower)
    ensures qs.None? <==> !detailed && !Usable(llm, info.products, lower) && Raises(info, lower)
    ensures qs.Some? ==> Presentable(qs.value, lower) && |qs.value| <= Clamp(maxQuestions)
    ensures qs.Some? ==> (detailed <==> qs.value == [])
    ensures !detailed && Usable(llm, info.products, lower) ==>
      qs == Some(Upto(Firsts(Questions(llm.value.items, lower), QuestionId), Clamp(maxQuestions)))
    ensures var context := ReadContext(info, lower);
      !detailed && !Usable(llm, info.products, lower) && context.Some? ==>
      qs == Some(DefaultQuestions(context.value, Clamp(maxQuestions), lower))
  {
    if detailed {
      return Some([]);
    }
    var n := Clamp(maxQuestions);
    ProductNamesRaiseIff(info.products);
    ReadRaisesIff(info, lower);
    if llm.Some? && ProductNames(info.products).Some? {
      var parsed := ParseLlm(llm.value, n, lower);
      if parsed.Some? {
        AskedArePresentable(llm.value.items, n, lower);
        if parsed.value != [] {
          return parsed;
        }
      }
    }
    var context := ReadContext(info, lower);
    if context.None? {
      return None;
    }
    DefaultsArePresentable(context.value, n, lower);
    qs := Some(DefaultQuestions(context.value, n, lower));
  }
}
