/** The book entity: which object BookController builds for an action, the
    default table's field lists, the prompt loops that read and validate
    console input, and BookSearch's single-field search.

    `input()` is modelled as the sequence of lines still to be typed. Each
    line carries what Python's `int()` and `float()` make of it, since number
    parsing is not modelled. A prompt that runs out of lines stands for
    `input()` raising EOFError, which none of the loops catches. */
module Book {
  import opened Common

  // ---------------------------------------------------------------------------
  // Console input and the prompt loop
  // ---------------------------------------------------------------------------

  /** One line typed at a prompt, with the results of `int(text)` and
      `float(text)` (None where the cast raises ValueError). */
  datatype Line = Line(text: string, asInt: Option<int>, asFloat: Option<real>)

  /** Why a prompt refused a line (each prints its own message and re-prompts). */
  datatype Rejection = NoInput | NotANumber | BelowMinimum | AboveMaximum | OptionOutOfRange

  /** A prompt's judgement of one line. */
  datatype Verdict<+T> = Accept(value: T) | Reject(why: Rejection)

  /** The outcome of a prompt loop: the value of the first accepted line, how
      many lines were read, and why each earlier line was refused; or the
      lines ran out first. */
  datatype Prompt<+T> =
    | Accepted(value: T, consumed: nat, rejections: seq<Rejection>)
    | InputEnded(rejections: seq<Rejection>)

  /** Counts some refused lines in front of a later outcome. */
  function PrependRejections<T>(earlier: seq<Rejection>, p: Prompt<T>): Prompt<T>
  {
    match p
    case Accepted(v, n, later) => Accepted(v, |earlier| + n, earlier + later)
    case InputEnded(later) => InputEnded(earlier + later)
  }

  /** Reference definition of every `while True` prompt loop: read lines until
      the judge accepts one. */
  function FirstAccepted<T>(lines: seq<Line>, judge: Line -> Verdict<T>): Prompt<T>
    decreases |lines|
  {
    if |lines| == 0 then InputEnded([])
    else match judge(lines[0])
      case Accept(v) => Accepted(v, 1, [])
      case Reject(why) => PrependRejections([why], FirstAccepted(lines[1..], judge))
  }

  /** What FirstAccepted means: the accepted line is the first one the judge
      accepts, every line before it was refused for the recorded reason, and
      the input ends only when every line was refused. */
  lemma {:induction false} FirstAcceptedMeaning<T>(lines: seq<Line>, judge: Line -> Verdict<T>)
    ensures var p := FirstAccepted(lines, judge);
      (p.Accepted? ==> 0 < p.consumed <= |lines| && judge(lines[p.consumed - 1]) == Accept(p.value)
                       && |p.rejections| == p.consumed - 1) &&
      (p.InputEnded? ==> |p.rejections| == |lines|) &&
      (forall j :: 0 <= j < |p.rejections| ==> judge(lines[j]) == Reject(p.rejections[j]))
  {
    if |lines| > 0 && judge(lines[0]).Reject? {
      FirstAcceptedMeaning(lines[1..], judge);
      var rest := FirstAccepted(lines[1..], judge);
      var p := FirstAccepted(lines, judge);
      assert p.rejections == [judge(lines[0]).why] + rest.rejections;
      forall j | 0 <= j < |p.rejections|
        ensures judge(lines[j]) == Reject(p.rejections[j])
      {
        if j > 0 {
          assert lines[j] == lines[1..][j - 1];
        }
      }
    }
  }

  lemma PrependRejectionsTwice<T>(first: seq<Rejection>, second: seq<Rejection>, p: Prompt<T>)
    ensures PrependRejections(first, PrependRejections(second, p)) == PrependRejections(first + second, p)
  {
    match p
    case Accepted(v, n, later) =>
      assert first + (second + later) == (first + second) + later;
    case InputEnded(later) =>
      assert first + (second + later) == (first + second) + later;
  }

  /** The `while True` loop shared by every prompt: read a line, print the
      judge's message and go round again until a line is accepted. */
  method PromptUntilAccepted<T(==)>(lines: seq<Line>, judge: Line -> Verdict<T>) returns (p: Prompt<T>)
    ensures p == FirstAccepted(lines, judge)
  {
    var i := 0;
    var rejected: seq<Rejection> := [];
    assert lines[0..] == lines;
    while i < |lines|
      invariant 0 <= i <= |lines| && |rejected| == i
      invariant FirstAccepted(lines, judge) == PrependRejections(rejected, FirstAccepted(lines[i..], judge))
    {
      var verdict := judge(lines[i]);
      if verdict.Accept? {
        return Accepted(verdict.value, i + 1, rejected);
      }
      assert lines[i..][1..] == lines[i + 1..];
      PrependRejectionsTwice(rejected, [verdict.why], FirstAccepted(lines[i + 1..], judge));
      rejected := rejected + [verdict.why];
      i := i + 1;
    }
    return InputEnded(rejected);
  }

  // ---------------------------------------------------------------------------
  // CreateBook's prompts
  // ---------------------------------------------------------------------------

  /** retrieve_string_value's test: any non-empty line. */
  function NonEmptyText(): Line -> Verdict<string>
  {
    (line: Line) => if line.text == "" then Reject(NoInput) else Accept(line.text)
  }

  /** retrieve_string_value: the first non-empty line; an empty one re-prompts. */
  method RetrieveStringValue(lines: seq<Line>) returns (p: Prompt<string>)
    ensures p == FirstAccepted(lines, NonEmptyText())
    ensures p.Accepted? ==> p.value != "" && p.consumed <= |lines| && lines[p.consumed - 1].text == p.value
    ensures p.Accepted? ==> forall j :: 0 <= j < p.consumed - 1 ==> lines[j].text == ""
    ensures p.InputEnded? <==> forall j :: 0 <= j < |lines| ==> lines[j].text == ""
  {
    p := PromptUntilAccepted(lines, NonEmptyText());
    FirstAcceptedMeaning(lines, NonEmptyText());
    if p.Accepted? {
      assert NonEmptyText()(lines[p.consumed - 1]) == Accept(p.value);
      forall j | 0 <= j < p.consumed - 1 ensures lines[j].text == "" {
        assert NonEmptyText()(lines[j]) == Reject(p.rejections[j]);
      }
    } else {
      forall j | 0 <= j < |lines| ensures lines[j].text == "" {
        assert NonEmptyText()(lines[j]) == Reject(p.rejections[j]);
      }
    }
  }

  /** A number read by retrieve_numeric_value: `int()` gives an integer,
      `float()` a real. */
  datatype Number = IntNumber(i: int) | FloatNumber(x: real)

  function Magnitude(n: Number): real
  {
    match n
    case IntNumber(i) => i as real
    case FloatNumber(x) => x
  }

  /** The three forms retrieve_numeric_value's `value_range` takes: None, [min]
      and [min, max]; both bounds are inclusive. */
  datatype ValueRange = NoRange | AtLeast(min: real) | Between(min: real, max: real)

  /** The cast for a handled data type: `int()` for "Integer", else `float()`. */
  function CastNumber(dataType: string, line: Line): Option<Number>
  {
    if dataType == "Integer" then
      match line.asInt
      case None => None
      case Some(i) => Some(IntNumber(i))
    else
      match line.asFloat
      case None => None
      case Some(x) => Some(FloatNumber(x))
  }

  /** retrieve_numeric_value's test: the cast first, then the minimum, then
      the maximum. */
  function NumericVerdict(dataType: string, valueRange: ValueRange, line: Line): Verdict<Number>
  {
    match CastNumber(dataType, line)
    case None => Reject(NotANumber)
    case Some(v) =>
      match valueRange
      case NoRange => Accept(v)
      case AtLeast(min) => if Magnitude(v) < min then Reject(BelowMinimum) else Accept(v)
      case Between(min, max) =>
        if Magnitude(v) < min then Reject(BelowMinimum)
        else if Magnitude(v) > max then Reject(AboveMaximum)
        else Accept(v)
  }

  function NumericJudge(dataType: string, valueRange: ValueRange): Line -> Verdict<Number>
  {
    (line: Line) => NumericVerdict(dataType, valueRange, line)
  }

  /** Whether a value lies in the range, bounds included. */
  predicate InRange(x: real, valueRange: ValueRange)
  {
    match valueRange
    case NoRange => true
    case AtLeast(min) => min <= x
    case Between(min, max) => min <= x <= max
  }

  /** A line is accepted exactly when it casts and the value is in range; values
      out of range are refused, never clamped. The minimum is tested before the
      maximum. */
  lemma NumericVerdictMeaning(dataType: string, valueRange: ValueRange, line: Line, v: Number)
    ensures NumericVerdict(dataType, valueRange, line) == Accept(v)
        <==> CastNumber(dataType, line) == Some(v) && InRange(Magnitude(v), valueRange)
    ensures NumericVerdict(dataType, valueRange, line) == Reject(NotANumber)
        <==> CastNumber(dataType, line).None?
    ensures NumericVerdict(dataType, valueRange, line) == Reject(BelowMinimum)
        <==> CastNumber(dataType, line).Some? && !valueRange.NoRange?
             && Magnitude(CastNumber(dataType, line).value) < valueRange.min
    ensures NumericVerdict(dataType, valueRange, line) == Reject(AboveMaximum)
        <==> CastNumber(dataType, line).Some? && valueRange.Between?
             && valueRange.min <= Magnitude(CastNumber(dataType, line).value)
             && Magnitude(CastNumber(dataType, line).value) > valueRange.max
  {
  }

  /** The entry of `error_message` printed for each refusal of a numeric
      prompt: [0] for a failed cast, [1] below the minimum, [2] above the maximum.
      Console output is not modelled; this maps each reason recorded in the
      `rejections` of RetrieveNumericValue's prompt to the message the source
      prints for it. */
  function ErrorMessageIndex(why: Rejection): (index: nat)
    requires why == NotANumber || why == BelowMinimum || why == AboveMaximum
    ensures index < 3
  {
    match why
    case NotANumber => 0
    case BelowMinimum => 1
    case AboveMaximum => 2
  }

  /** retrieve_numeric_value: None, reading nothing, for a data type other than
      "Integer" and "Float"; otherwise the first line that casts and lies in
      range. */
  method RetrieveNumericValue(dataType: string, valueRange: ValueRange, lines: seq<Line>)
    returns (r: Option<Prompt<Number>>)
    ensures r.None? <==> dataType != "Integer" && dataType != "Float"
    ensures r.Some? ==> r.value == FirstAccepted(lines, NumericJudge(dataType, valueRange))
    ensures r.Some? && r.value.Accepted? ==>
      InRange(Magnitude(r.value.value), valueRange) &&
      (dataType == "Integer" <==> r.value.value.IntNumber?)
    ensures r.Some? ==> forall j :: 0 <= j < |r.value.rejections| ==>
      r.value.rejections[j] in {NotANumber, BelowMinimum, AboveMaximum}
  {
    if dataType != "Integer" && dataType != "Float" {
      return None;
    }
    var p := PromptUntilAccepted(lines, NumericJudge(dataType, valueRange));
    FirstAcceptedMeaning(lines, NumericJudge(dataType, valueRange));
    if p.Accepted? {
      var line := lines[p.consumed - 1];
      assert NumericVerdict(dataType, valueRange, line) == Accept(p.value);
      NumericVerdictMeaning(dataType, valueRange, line, p.value);
    }
    forall j | 0 <= j < |p.rejections| ensures p.rejections[j] in {NotANumber, BelowMinimum, AboveMaximum} {
      assert NumericVerdict(dataType, valueRange, lines[j]) == Reject(p.rejections[j]);
    }
    return Some(p);
  }

  /** A CreateBook object: a title, an author and a stock quantity. */
  datatype CreateBook = CreateBook(title: string, author: string, quantity: Number)
  {
    /** The dispatcher reads none of a CreateBook's attributes. */
    function Attributes(): Entity
    {
      NoAttributes
    }
  }

  /** Building an object that prompts in its constructor: the object and the
      number of lines read, or EOFError raised by `input()`. */
  datatype Construction<+T> = Constructed(value: T, consumed: nat) | RaisedEOF

  /** What CreateBook's constructor reads: a title, an author, then an integer
      quantity of at least 0. */
  function CreateBookSpec(lines: seq<Line>): Construction<CreateBook>
  {
    FirstAcceptedMeaning(lines, NonEmptyText());
    match FirstAccepted(lines, NonEmptyText())
    case InputEnded(_) => RaisedEOF
    case Accepted(title, n1, _) =>
      FirstAcceptedMeaning(lines[n1..], NonEmptyText());
      match FirstAccepted(lines[n1..], NonEmptyText())
      case InputEnded(_) => RaisedEOF
      case Accepted(author, n2, _) =>
        match FirstAccepted(lines[n1..][n2..], NumericJudge("Integer", AtLeast(0.0)))
        case InputEnded(_) => RaisedEOF
        case Accepted(quantity, n3, _) => Constructed(CreateBook(title, author, quantity), n1 + n2 + n3)
  }

  /** CreateBook's constructor. */
  method NewCreateBook(lines: seq<Line>) returns (r: Construction<CreateBook>)
    ensures r == CreateBookSpec(lines)
  {
    var title := RetrieveStringValue(lines);
    if title.InputEnded? {
      return RaisedEOF;
    }
    var author := RetrieveStringValue(lines[title.consumed..]);
    if author.InputEnded? {
      return RaisedEOF;
    }
    var quantity := RetrieveNumericValue("Integer", AtLeast(0.0), lines[title.consumed..][author.consumed..]);
    if quantity.value.InputEnded? {
      return RaisedEOF;
    }
    return Constructed(CreateBook(title.value, author.value, quantity.value.value),
                       title.consumed + author.consumed + quantity.value.consumed);
  }

  /** Every book CreateBook's constructor builds has a non-empty title and
      author and a whole, non-negative quantity, and it read no more lines than
      were typed. */
  lemma CreateBookValid(lines: seq<Line>)
    ensures var r := CreateBookSpec(lines);
      r.Constructed? ==>
        r.value.title != "" && r.value.author != "" &&
        r.value.quantity.IntNumber? && r.value.quantity.i >= 0 && r.consumed <= |lines|
  {
    var r := CreateBookSpec(lines);
    if r.Constructed? {
      var p1 := FirstAccepted(lines, NonEmptyText());
      FirstAcceptedMeaning(lines, NonEmptyText());
      var rest1 := lines[p1.consumed..];
      var p2 := FirstAccepted(rest1, NonEmptyText());
      FirstAcceptedMeaning(rest1, NonEmptyText());
      var rest2 := rest1[p2.consumed..];
      var judge := NumericJudge("Integer", AtLeast(0.0));
      var p3 := FirstAccepted(rest2, judge);
      FirstAcceptedMeaning(rest2, judge);
      assert judge(rest2[p3.consumed - 1]) == Accept(p3.value);
      NumericVerdictMeaning("Integer", AtLeast(0.0), rest2[p3.consumed - 1], p3.value);
    }
  }

  // ---------------------------------------------------------------------------
  // The default table and BookController
  // ---------------------------------------------------------------------------

  /** A CreateDefaultBookTable object: the key name and the integer and text
      field lists. It has no float list. */
  datatype CreateDefaultBookTable = CreateDefaultBookTable(primaryKey: string, intList: seq<string>,
                                                           textList: seq<string>)
  {
    /** The attributes the dispatcher reads; `float_list` is not among them. */
    function Attributes(): (e: Entity)
      ensures e.primaryKey == Has(primaryKey) && e.floatList.Missing?
    {
      NoAttributes.(primaryKey := Has(primaryKey), intList := Has(Some(intList)), textList := Has(Some(textList)))
    }
  }

  /** The default books table: key "id", integer field "quantity", text
      fields "title" and "author". */
  const DefaultBookTable := CreateDefaultBookTable("id", ["quantity"], ["title", "author"])

  /** The classes BookController can instantiate. */
  datatype CrudClass = CreateDefaultBookTableClass | CreateBookClass | BookSearchClass

  /** create_crud_instance's string-keyed choice. Only three actions are known;
      "Update Book" and "Delete Book", named in the module documentation, and
      every other string give None. */
  function CrudClassFor(bookAction: string): (c: Option<CrudClass>)
    ensures c == Some(CreateDefaultBookTableClass) <==> bookAction == "Create Default Table"
    ensures c == Some(CreateBookClass) <==> bookAction == "Create Book"
    ensures c == Some(BookSearchClass) <==> bookAction == "Search Book"
    ensures c.None? <==> bookAction !in {"Create Default Table", "Create Book", "Search Book"}
  {
    if bookAction == "Create Default Table" then Some(CreateDefaultBookTableClass)
    else if bookAction == "Create Book" then Some(CreateBookClass)
    else if bookAction == "Search Book" then Some(BookSearchClass)
    else None
  }

  /** What create_crud_instance returns: the attributes of the object it
      builds (None for an unknown action), and the lines its constructor read. */
  function CrudInstanceSpec(bookAction: string, lines: seq<Line>): Construction<Option<Entity>>
  {
    match CrudClassFor(bookAction)
    case None => Constructed(None, 0)
    case Some(CreateDefaultBookTableClass) => Constructed(Some(DefaultBookTable.Attributes()), 0)
    case Some(CreateBookClass) =>
      (match CreateBookSpec(lines)
       case RaisedEOF => RaisedEOF
       case Constructed(book, n) => Constructed(Some(book.Attributes()), n))
    case Some(BookSearchClass) =>
      (match SearchSpec(DefaultSearchInts, DefaultSearchTexts, DefaultSearchFloats, lines)
       case ListsRejected => Constructed(Some(BookSearchAttributes(None, None)), 0)
       case Found(field, value, n) => Constructed(Some(BookSearchAttributes(Some([field]), Some([value]))), n)
       case EndedChoosingOption => RaisedEOF
       case EndedEnteringValue(_) => RaisedEOF)
  }

  class BookController {
    const bookAction: string

    constructor (bookAction: string)
      ensures this.bookAction == bookAction
    {
      this.bookAction := bookAction;
    }

    /** Builds the object for the action; its constructor may prompt. */
    method CreateCrudInstance(lines: seq<Line>) returns (r: Construction<Option<Entity>>)
      ensures r == CrudInstanceSpec(bookAction, lines)
    {
      var c := CrudClassFor(bookAction);
      match c {
        case None =>
          r := Constructed(None, 0);
        case Some(CreateDefaultBookTableClass) =>
          r := Constructed(Some(DefaultBookTable.Attributes()), 0);
        case Some(CreateBookClass) =>
          var book := NewCreateBook(lines);
          r := match book
            case RaisedEOF => RaisedEOF
            case Constructed(b, n) => Constructed(Some(b.Attributes()), n);
        case Some(BookSearchClass) =>
          var search, outcome := NewBookSearch(lines);
          if outcome.EndedChoosingOption? || outcome.EndedEnteringValue? {
            r := RaisedEOF;
          } else {
            r := Constructed(Some(search.Attributes()), if outcome.Found? then outcome.consumed else 0);
          }
      }
    }
  }

  /** Only the default-table object is built without reading input. */
  lemma {:induction false} DefaultTableReadsNoInput(lines: seq<Line>)
    ensures CrudInstanceSpec("Create Default Table", lines)
         == Constructed(Some(DefaultBookTable.Attributes()), 0)
    ensures CrudInstanceSpec("Update Book", lines) == Constructed(None, 0)
    ensures CrudInstanceSpec("Delete Book", lines) == Constructed(None, 0)
  {
  }

  // ---------------------------------------------------------------------------
  // BookSearch
  // ---------------------------------------------------------------------------

  /** No two positions of the list hold the same name. */
  predicate Distinct(names: seq<string>)
  {
    forall a, b :: 0 <= a < b < |names| ==> names[a] != names[b]
  }

  /** check_no_list_duplicates: compares every pair of positions of
      `int_list + text_list + float_list`. */
  method CheckNoListDuplicates(intList: seq<string>, textList: seq<string>, floatList: seq<string>)
    returns (noDuplicates: bool)
    ensures noDuplicates <==> Distinct(intList + textList + floatList)
  {
    var combined := intList + textList + floatList;
    var i := 0;
    while i < |combined| - 1
      invariant 0 <= i && (|combined| > 0 ==> i <= |combined| - 1)
      invariant forall a, b :: 0 <= a < i && a < b < |combined| ==> combined[a] != combined[b]
    {
      var j := i + 1;
      while j < |combined|
        invariant i + 1 <= j <= |combined|
        invariant forall b :: i < b < j ==> combined[i] != combined[b]
      {
        if combined[i] == combined[j] {
          return false;
        }
        j := j + 1;
      }
      i := i + 1;
    }
    return true;
  }

  /** The list a search field comes from. */
  datatype FieldGroup = IntGroup | TextGroup | FloatGroup

  /** The group of option i: the integer fields come first, then the text
      fields, then the float fields. */
  function GroupOf(i: int, intCount: nat, textCount: nat): FieldGroup
  {
    if i < intCount then IntGroup
    else if i < intCount + textCount then TextGroup
    else FloatGroup
  }

  /** Option i names the i-th field of the combined list, and its group says
      which list holds it, at which position. */
  lemma GroupOfLocates(intList: seq<string>, textList: seq<string>, floatList: seq<string>, i: int)
    requires 0 <= i < |intList| + |textList| + |floatList|
    ensures var combined := intList + textList + floatList;
      match GroupOf(i, |intList|, |textList|)
      case IntGroup => combined[i] == intList[i]
      case TextGroup => 0 <= i - |intList| < |textList| && combined[i] == textList[i - |intList|]
      case FloatGroup =>
        0 <= i - |intList| - |textList| < |floatList| && combined[i] == floatList[i - |intList| - |textList|]
  {
  }

  /** One entry of `search_option_field`: a field name and its list. */
  datatype SearchOption = SearchOption(fieldName: string, group: FieldGroup)

  /** The loop that fills `search_option_field`, tagging each field with the
      source's own tests, and leaves `search_count` at the last option. */
  method BuildSearchOptions(intList: seq<string>, textList: seq<string>, floatList: seq<string>)
    returns (searchOptionField: map<int, SearchOption>, searchCount: int)
    ensures var combined := intList + textList + floatList;
      (forall i :: i in searchOptionField <==> 0 <= i < |combined|) &&
      (forall i :: 0 <= i < |combined| ==>
         searchOptionField[i] == SearchOption(combined[i], GroupOf(i, |intList|, |textList|))) &&
      searchCount == (if |combined| == 0 then 0 else |combined| - 1)
  {
    var combined := intList + textList + floatList;
    searchOptionField := map[];
    searchCount := 0;
    var count := 0;
    while count < |combined|
      invariant 0 <= count <= |combined|
      invariant forall i :: i in searchOptionField <==> 0 <= i < count
      invariant forall i :: 0 <= i < count ==>
        searchOptionField[i] == SearchOption(combined[i], GroupOf(i, |intList|, |textList|))
      invariant searchCount == (if count == 0 then 0 else count - 1)
    {
      var fieldName := combined[count];
      if |intList| != 0 && count <= |intList| - 1 {
        searchOptionField := searchOptionField[count := SearchOption(fieldName, IntGroup)];
      } else if |textList| != 0 && count <= (|textList| + |intList|) - 1 {
        searchOptionField := searchOptionField[count := SearchOption(fieldName, TextGroup)];
      } else {
        searchOptionField := searchOptionField[count := SearchOption(fieldName, FloatGroup)];
      }
      searchCount := count;
      count := count + 1;
    }
  }

  /** The option prompt: a line that casts with `int()` and lies in
      0..searchCount. */
  function OptionJudge(searchCount: int): Line -> Verdict<nat>
  {
    (line: Line) =>
      match line.asInt
      case None => Reject(NotANumber)
      case Some(n) => if n < 0 || n > searchCount then Reject(OptionOutOfRange) else Accept(n as nat)
  }

  /** The search-value prompt: a non-empty line that, for an integer field,
      casts with `int()` and, for a float field, with `float()`. The line is
      kept as typed, unconverted. */
  function SearchValueJudge(group: FieldGroup): Line -> Verdict<string>
  {
    (line: Line) =>
      if line.text == "" then Reject(NoInput)
      else if group == IntGroup && line.asInt.None? then Reject(NotANumber)
      else if group == FloatGroup && line.asFloat.None? then Reject(NotANumber)
      else Accept(line.text)
  }

  /** The option numbers accepted are exactly 0 through searchCount; a line
      that does not cast and a number out of range are refused differently. */
  lemma OptionJudgeMeaning(searchCount: int, line: Line, option: nat)
    ensures OptionJudge(searchCount)(line) == Accept(option) <==> line.asInt == Some(option) && option <= searchCount
    ensures OptionJudge(searchCount)(line) == Reject(NotANumber) <==> line.asInt.None?
    ensures OptionJudge(searchCount)(line) == Reject(OptionOutOfRange)
        <==> line.asInt.Some? && (line.asInt.value < 0 || line.asInt.value > searchCount)
  {
  }

  /** A search value is any non-empty line for a text field, and must also
      cast with `int()` for an integer field or `float()` for a float field;
      it is kept as typed. */
  lemma SearchValueJudgeMeaning(group: FieldGroup, line: Line, value: string)
    ensures SearchValueJudge(group)(line) == Accept(value) <==>
      value == line.text && value != "" &&
      (group == IntGroup ==> line.asInt.Some?) && (group == FloatGroup ==> line.asFloat.Some?)
  {
  }

  /** How search_book_single_field ends. */
  datatype Search =
    | ListsRejected                                                 // returns None before any prompt
    | Found(whereField: string, searchValue: string, consumed: nat)
    | EndedChoosingOption                                           // EOFError at the option prompt
    | EndedEnteringValue(whereField: string)                        // EOFError at the value prompt

  /** search_book_single_field, as a function of the lines typed. */
  function SearchSpec(intList: seq<string>, textList: seq<string>, floatList: seq<string>,
                      lines: seq<Line>): Search
  {
    var combined := intList + textList + floatList;
    if |combined| == 0 || !Distinct(combined) then ListsRejected
    else
      FirstAcceptedMeaning(lines, OptionJudge(|combined| - 1));
      match FirstAccepted(lines, OptionJudge(|combined| - 1))
      case InputEnded(_) => EndedChoosingOption
      case Accepted(option, n, _) =>
        var field := combined[option];
        match FirstAccepted(lines[n..], SearchValueJudge(GroupOf(option, |intList|, |textList|)))
        case InputEnded(_) => EndedEnteringValue(field)
        case Accepted(value, m, _) => Found(field, value, n + m)
  }

  /** A successful search names a field of the lists, selected by the number
      typed on an earlier line, and keeps a later non-empty line as typed; for
      an integer field that line casts with `int()`. */
  lemma SearchFoundMeaning(intList: seq<string>, textList: seq<string>, floatList: seq<string>,
                           lines: seq<Line>)
    ensures var s := SearchSpec(intList, textList, floatList, lines);
      var combined := intList + textList + floatList;
      s.Found? ==>
        0 < s.consumed <= |lines| && s.searchValue != "" && lines[s.consumed - 1].text == s.searchValue &&
        Distinct(combined) &&
        exists k, option :: 0 <= k < s.consumed - 1 && 0 <= option < |combined| &&
          lines[k].asInt == Some(option) && s.whereField == combined[option] &&
          (option < |intList| ==> lines[s.consumed - 1].asInt.Some?)
  {
    var s := SearchSpec(intList, textList, floatList, lines);
    var combined := intList + textList + floatList;
    if s.Found? {
      var optionJudge := OptionJudge(|combined| - 1);
      FirstAcceptedMeaning(lines, optionJudge);
      var choice := FirstAccepted(lines, optionJudge);
      var option := choice.value;
      var n := choice.consumed;
      assert optionJudge(lines[n - 1]) == Accept(option);
      var valueJudge := SearchValueJudge(GroupOf(option, |intList|, |textList|));
      FirstAcceptedMeaning(lines[n..], valueJudge);
      var entered := FirstAccepted(lines[n..], valueJudge);
      assert valueJudge(lines[n..][entered.consumed - 1]) == Accept(entered.value);
      assert lines[n..][entered.consumed - 1] == lines[s.consumed - 1];
      assert 0 <= n - 1 < s.consumed - 1 && lines[n - 1].asInt == Some(option);
    }
  }

  /** The fields the BookSearch constructor searches by. */
  const DefaultSearchInts: seq<string> := ["id", "quantity"]
  const DefaultSearchTexts: seq<string> := ["author"]
  const DefaultSearchFloats: seq<string> := []

  /** The lists BookSearch's constructor passes are never refused, so the
      constructor always prompts. */
  lemma DefaultSearchListsAccepted(lines: seq<Line>)
    ensures SearchSpec(DefaultSearchInts, DefaultSearchTexts, DefaultSearchFloats, lines) != ListsRejected
  {
    var combined := DefaultSearchInts + DefaultSearchTexts + DefaultSearchFloats;
    assert combined == ["id", "quantity", "author"];
    assert Distinct(combined);
  }

  /** The attributes a BookSearch object shows the dispatcher; `fields_list` is
      "*" (joined into the query as "*"). */
  function BookSearchAttributes(whereFieldsList: Option<seq<string>>, searchValues: Option<seq<string>>): Entity
  {
    NoAttributes.(
      fieldsList := Has(["*"]),
      whereFieldsList := Has(whereFieldsList),
      searchValues := Has(match searchValues
                          case None => None
                          case Some(vs) => Some(seq(|vs|, i requires 0 <= i < |vs| => TextV(vs[i])))))
  }

  /** A BookSearch object: the fields to return, and the where-field and value
      that search_book_single_field sets. */
  class BookSearch {
    var fieldsList: seq<string>
    var whereFieldsList: Option<seq<string>>
    var searchValues: Option<seq<string>>

    /** The class-level defaults: all fields, no where-field, no value. */
    constructor ()
      ensures fieldsList == ["*"] && whereFieldsList == None && searchValues == None
    {
      fieldsList := ["*"];
      whereFieldsList := None;
      searchValues := None;
    }

    function Attributes(): Entity
      reads this
      requires fieldsList == ["*"]
    {
      BookSearchAttributes(whereFieldsList, searchValues)
    }

    /** Returns None at once when all three lists are empty or a name repeats;
        otherwise prompts for an option, sets the where-field, prompts for a
        value and sets the search value. */
    method SearchBookSingleField(intList: seq<string>, textList: seq<string>, floatList: seq<string>,
                                 lines: seq<Line>)
      returns (outcome: Search)
      modifies this
      ensures outcome == SearchSpec(intList, textList, floatList, lines)
      ensures fieldsList == old(fieldsList)
      ensures whereFieldsList == (if outcome.Found? || outcome.EndedEnteringValue?
                                  then Some([outcome.whereField]) else old(whereFieldsList))
      ensures searchValues == (if outcome.Found? then Some([outcome.searchValue]) else old(searchValues))
    {
      if |textList| == 0 && |intList| == 0 && |floatList| == 0 {
        return ListsRejected;
      }
      var noDuplicates := CheckNoListDuplicates(intList, textList, floatList);
      if !noDuplicates {
        return ListsRejected;
      }
      ghost var combined := intList + textList + floatList;
      var searchOptionField, searchCount := BuildSearchOptions(intList, textList, floatList);
      assert searchCount == |combined| - 1;
      var choice := PromptUntilAccepted(lines, OptionJudge(searchCount));
      if choice.InputEnded? {
        return EndedChoosingOption;
      }
      FirstAcceptedMeaning(lines, OptionJudge(searchCount));
      var optionInput := choice.value;
      assert OptionJudge(searchCount)(lines[choice.consumed - 1]) == Accept(optionInput);
      assert optionInput < |combined| && optionInput in searchOptionField;
      var chosen := searchOptionField[optionInput];
      assert chosen == SearchOption(combined[optionInput], GroupOf(optionInput, |intList|, |textList|));
      whereFieldsList := Some([chosen.fieldName]);
      var entered := PromptUntilAccepted(lines[choice.consumed..], SearchValueJudge(chosen.group));
      if entered.InputEnded? {
        return EndedEnteringValue(chosen.fieldName);
      }
      searchValues := Some([entered.value]);
      return Found(chosen.fieldName, entered.value, choice.consumed + entered.consumed);
    }
  }

  /** BookSearch's constructor: the defaults, then a search over "id" and
      "quantity" (integer) and "author" (text). */
  method NewBookSearch(lines: seq<Line>) returns (search: BookSearch, outcome: Search)
    ensures fresh(search)
    ensures outcome == SearchSpec(DefaultSearchInts, DefaultSearchTexts, DefaultSearchFloats, lines)
    ensures search.fieldsList == ["*"]
    ensures search.whereFieldsList == (if outcome.Found? || outcome.EndedEnteringValue?
                                       then Some([outcome.whereField]) else None)
    ensures search.searchValues == (if outcome.Found? then Some([outcome.searchValue]) else None)
  {
    search := new BookSearch();
    outcome := search.SearchBookSingleField(DefaultSearchInts, DefaultSearchTexts, DefaultSearchFloats, lines);
  }
}
