/**
 * The typeahead selection engine (src/components/Autocomplete.tsx).
 *
 * The component's state is the five React state fields plus its two refs:
 * `skipFetchRef` and `abortControllerRef`.  The abort controller is modelled
 * as a generation counter: every request carries the generation it was
 * issued with, and its outcome is applied only if that generation is still
 * the current one and has not been aborted since.  The debounce timer is an
 * explicit event (`OnTimer`), and the fetch effect runs whenever its
 * dependency, the trimmed input, changes (cleanup of the previous run first).
 *
 * Each event is specified by a function on a `TypeaheadState` value; the
 * class `Typeahead` performs the same updates in place on its fields.
 */
module Autocomplete {
  import opened Wrappers
  import opened Text

  datatype OptionId = NumberId(n: int) | StringId(s: string)

  /** An `AutocompleteOption`: its `id` and its string-valued properties. */
  datatype Item = Item(id: OptionId, fields: map<string, string>)

  /** The component's configuration props. */
  datatype Config = Config(minChars: int, searchField: string, getOptionLabel: Option<Item -> string>)

  function DefaultMinChars(): int { 1 }

  datatype Key = ArrowDown | ArrowUp | Enter | Escape | OtherKey

  /** A search request: its abort generation and the query parameter it sends. */
  datatype Request = Request(generation: nat, paramName: string, query: string)

  /** How a request settles: with the server's option list, or with an error. */
  datatype Response = Loaded(data: seq<Item>) | Failed

  datatype TypeaheadState = TypeaheadState(
    inputValue: string,
    options: seq<Item>,
    isOpen: bool,
    isLoading: bool,
    highlightedIndex: int,
    skipFetch: bool,            // skipFetchRef.current
    generation: nat,            // generation of the request in abortControllerRef (0: none yet)
    aborted: bool,              // whether that request has been aborted
    timer: Option<string>,      // the armed debounce timer, with the trimmed query it closed over
    effectQuery: string)        // the trimmed input the fetch effect last ran for

  datatype KeyOutcome = KeyOutcome(state: TypeaheadState, selected: Option<Item>)
  datatype TimerOutcome = TimerOutcome(state: TypeaheadState, request: Option<Request>)
  datatype SettleOutcome = SettleOutcome(state: TypeaheadState, logged: bool)

  /** The central invariant: the highlight is -1 or a valid index; an armed timer belongs to the current query. */
  ghost predicate Inv(s: TypeaheadState) {
    && -1 <= s.highlightedIndex < |s.options|
    && (s.timer.Some? ==> s.timer.value == s.effectQuery)
  }

  /** Whether a request may still change the widget: it is the current one and was not aborted. */
  predicate Live(s: TypeaheadState, req: Request) {
    req.generation == s.generation && !s.aborted
  }

  /** `deriveLabel(option)` */
  function DeriveLabel(option: Option<Item>, getOptionLabel: Option<Item -> string>): (caption: string)
    ensures option.None? ==> caption == ""
    ensures option.Some? && getOptionLabel.Some? ==> caption == getOptionLabel.value(option.value)
    ensures option.Some? && getOptionLabel.None? ==>
              caption == (if "name" in option.value.fields then option.value.fields["name"] else "")
  {
    match option
    case None => ""
    case Some(o) =>
      match getOptionLabel
      case Some(f) => f(o)
      case None => if "name" in o.fields then o.fields["name"] else ""
  }

  /**
   * `hasQuery`: the trimmed input reaches `minChars`.  Surrounding whitespace
   * never counts, so with a positive `minChars` blank input is no query, and
   * with `minChars <= 0` every input is one.
   */
  predicate HasQuery(c: Config, s: TypeaheadState)
    ensures HasQuery(c, s) ==> |s.inputValue| >= c.minChars
    ensures HasQuery(c, s) && c.minChars >= 1 ==> Trim(s.inputValue) != ""
    ensures c.minChars <= 0 ==> HasQuery(c, s)
  {
    |Trim(s.inputValue)| >= c.minChars
  }

  /**
   * `showEmptyState`: shown only for a query with no options while nothing
   * is loading, and then no option can be highlighted.
   */
  predicate ShowEmptyState(c: Config, s: TypeaheadState)
    ensures ShowEmptyState(c, s) ==> HasQuery(c, s) && !s.isLoading && s.options == []
    ensures ShowEmptyState(c, s) && Inv(s) ==> s.highlightedIndex == -1
  {
    !s.isLoading && HasQuery(c, s) && |s.options| == 0
  }

  /** The option's lower-cased label contains the (already lower-cased) query. */
  predicate Matches(item: Item, normalizedQuery: string, getOptionLabel: Option<Item -> string>) {
    Contains(Lower(DeriveLabel(Some(item), getOptionLabel)), normalizedQuery)
  }

  /** `data.filter(option => label(option).toLowerCase().includes(normalizedQuery))` */
  function FilterByLabel(data: seq<Item>, normalizedQuery: string, getOptionLabel: Option<Item -> string>): (r: seq<Item>)
    ensures |r| <= |data|
    ensures forall x :: x in r <==> x in data && Matches(x, normalizedQuery, getOptionLabel)
  {
    if data == [] then []
    else
      var rest := FilterByLabel(data[1..], normalizedQuery, getOptionLabel);
      if Matches(data[0], normalizedQuery, getOptionLabel) then [data[0]] + rest else rest
  }

  /** The filter keeps the response order: filtering a concatenation filters each part. */
  lemma {:induction false} FilterByLabelAppend(a: seq<Item>, b: seq<Item>, q: string, g: Option<Item -> string>)
    ensures FilterByLabel(a + b, q, g) == FilterByLabel(a, q, g) + FilterByLabel(b, q, g)
  {
    if a == [] {
      assert a + b == b;
    } else {
      assert (a + b)[0] == a[0];
      assert (a + b)[1..] == a[1..] + b;
      FilterByLabelAppend(a[1..], b, q, g);
    }
  }

  lemma ContainsEmpty(s: string)
    ensures Contains(s, "")
  {
  }

  /** `filtered`: no filtering when the lower-cased query is empty, the label filter otherwise. */
  function FilterResponse(data: seq<Item>, query: string, getOptionLabel: Option<Item -> string>): (r: seq<Item>)
    ensures r == FilterByLabel(data, Lower(query), getOptionLabel)
  {
    var normalizedQuery := Lower(query);
    if |normalizedQuery| == 0 then
      KeepAllWhenQueryEmpty(data, getOptionLabel);
      data
    else FilterByLabel(data, normalizedQuery, getOptionLabel)
  }

  /** Every label contains the empty query, so the filter then keeps the whole response. */
  lemma {:induction false} KeepAllWhenQueryEmpty(data: seq<Item>, g: Option<Item -> string>)
    ensures FilterByLabel(data, "", g) == data
  {
    if data != [] {
      ContainsEmpty(Lower(DeriveLabel(Some(data[0]), g)));
      KeepAllWhenQueryEmpty(data[1..], g);
    }
  }

  /** ArrowDown's updater: `prev < len - 1 ? prev + 1 : prev`. */
  function ArrowDownIndex(prev: int, len: nat): (r: int)
    ensures r == prev + 1 <==> prev < len - 1
    ensures r == prev || r == prev + 1
    ensures -1 <= prev < len ==> -1 <= r < len
    ensures -1 <= prev < len && len > 0 ==> 0 <= r
  {
    if prev < len - 1 then prev + 1 else prev
  }

  /** ArrowUp's updater: `prev > 0 ? prev - 1 : prev`. */
  function ArrowUpIndex(prev: int): (r: int)
    ensures r == prev - 1 <==> prev > 0
    ensures r == prev || r == prev - 1
    ensures prev >= 0 ==> r >= 0
    ensures prev == -1 ==> r == -1
  {
    if prev > 0 then prev - 1 else prev
  }

  /** The body of the fetch effect: consume a pending skip, clear on a short query, or open and arm the timer. */
  function EffectBody(c: Config, s: TypeaheadState): (r: TypeaheadState)
    ensures Inv(s) && s.effectQuery == Trim(s.inputValue) ==> Inv(r)
  {
    if s.skipFetch then s.(skipFetch := false)
    else if !HasQuery(c, s) then
      s.(options := [], isOpen := false, highlightedIndex := -1, aborted := true)
    else s.(isOpen := true, timer := Some(s.effectQuery))
  }

  /** The fetch effect, run after a render: nothing when the trimmed input is unchanged, else cleanup then body. */
  function RunEffect(c: Config, s: TypeaheadState): (r: TypeaheadState)
    ensures Trim(s.inputValue) == s.effectQuery ==> r == s
    ensures Trim(s.inputValue) != s.effectQuery ==>
      && r.effectQuery == Trim(s.inputValue) && r.inputValue == s.inputValue
      && r.aborted && r.generation == s.generation && r.isLoading == s.isLoading
      && (s.skipFetch ==>
            !r.skipFetch && r.timer.None? && r.options == s.options
            && r.highlightedIndex == s.highlightedIndex && r.isOpen == s.isOpen)
      && (!s.skipFetch && !HasQuery(c, s) ==>
            !r.skipFetch && r.timer.None? && r.options == [] && !r.isOpen && r.highlightedIndex == -1)
      && (!s.skipFetch && HasQuery(c, s) ==>
            !r.skipFetch && r.timer == Some(Trim(s.inputValue)) && r.isOpen
            && r.options == s.options && r.highlightedIndex == s.highlightedIndex)
    ensures Inv(s) ==> Inv(r)
  {
    var trimmed := Trim(s.inputValue);
    if trimmed == s.effectQuery then s
    else EffectBody(c, s.(timer := None, aborted := true, effectQuery := trimmed))
  }

  /** The state after mounting with the `value` prop: the label as input, then the first effect run. */
  function Mount(c: Config, value: Option<Item>): (r: TypeaheadState)
    ensures Inv(r) && r.options == [] && r.highlightedIndex == -1 && !r.isLoading
    ensures r.inputValue == DeriveLabel(value, c.getOptionLabel)
    ensures r.isOpen <==> HasQuery(c, r)
  {
    var caption := DeriveLabel(value, c.getOptionLabel);
    EffectBody(c, TypeaheadState(caption, [], false, false, -1, false, 0, false, None, Trim(caption)))
  }

  /** `handleInputChange`, then the fetch effect. */
  function OnInputChange(c: Config, s: TypeaheadState, text: string): (r: TypeaheadState)
    ensures Inv(s) ==> Inv(r)
    ensures r.inputValue == text
    ensures |text| < c.minChars ==> !r.isOpen
    ensures Trim(text) != s.effectQuery && !s.skipFetch && |Trim(text)| < c.minChars ==>
              r.options == [] && !r.isOpen && r.highlightedIndex == -1 && r.timer.None?
              && forall req: Request :: !Live(r, req)
    ensures Trim(text) != s.effectQuery && !s.skipFetch && |Trim(text)| >= c.minChars ==>
              r.isOpen && r.timer == Some(Trim(text)) && r.options == s.options
  {
    var closes := text == "" || |text| < c.minChars;
    RunEffect(c, s.(inputValue := text, isOpen := if closes then false else s.isOpen))
  }

  /** The `value` prop changed: the input shows its label, then the fetch effect. */
  function OnValue(c: Config, s: TypeaheadState, value: Option<Item>): (r: TypeaheadState)
    ensures Inv(s) ==> Inv(r)
    ensures r.inputValue == DeriveLabel(value, c.getOptionLabel)
  {
    RunEffect(c, s.(inputValue := DeriveLabel(value, c.getOptionLabel)))
  }

  /**
   * `handleSelect(option)`, then the fetch effect.  The selection sets the skip
   * flag; if the label changes the trimmed input the effect consumes the flag
   * instead of fetching, otherwise the flag stays set for the next change.
   */
  function OnSelect(c: Config, s: TypeaheadState, option: Item): (r: TypeaheadState)
    ensures Inv(s) ==> Inv(r)
    ensures r.inputValue == DeriveLabel(Some(option), c.getOptionLabel)
    ensures !r.isOpen && r.options == [] && r.highlightedIndex == -1
    ensures Trim(r.inputValue) != s.effectQuery ==> !r.skipFetch && r.timer.None? && forall req: Request :: !Live(r, req)
    ensures Trim(r.inputValue) == s.effectQuery ==> r.skipFetch && r.timer == s.timer
  {
    var caption := DeriveLabel(Some(option), c.getOptionLabel);
    RunEffect(c, s.(skipFetch := true, inputValue := caption, isOpen := false, options := [], highlightedIndex := -1))
  }

  /** `handleKeyDown(key)`: the selected option is what Enter hands to `onSelect`. */
  function OnKeyDown(c: Config, s: TypeaheadState, key: Key): (r: KeyOutcome)
    ensures Inv(s) ==> Inv(r.state)
    ensures !s.isOpen || |s.options| == 0 ==> r == KeyOutcome(s, None)
    ensures key.ArrowDown? ==>
              r.selected.None? && r.state.highlightedIndex == (if s.isOpen && |s.options| > 0
                then ArrowDownIndex(s.highlightedIndex, |s.options|) else s.highlightedIndex)
    ensures key.ArrowUp? ==>
              r.selected.None? && r.state.highlightedIndex == (if s.isOpen && |s.options| > 0
                then ArrowUpIndex(s.highlightedIndex) else s.highlightedIndex)
    ensures key.Enter? && !(0 <= s.highlightedIndex < |s.options|) ==> r == KeyOutcome(s, None)
    ensures r.selected.Some? ==>
              key.Enter? && 0 <= s.highlightedIndex < |s.options| && r.selected.value == s.options[s.highlightedIndex]
              && r.state == OnSelect(c, s, r.selected.value)
    ensures key.Escape? ==>
              r.selected.None? && r.state.inputValue == s.inputValue && r.state.options == s.options
              && (s.isOpen && |s.options| > 0 ==> r.state == s.(isOpen := false))
  {
    if !s.isOpen || |s.options| == 0 then KeyOutcome(s, None)
    else
      match key
      case ArrowDown =>
        KeyOutcome(s.(highlightedIndex := ArrowDownIndex(s.highlightedIndex, |s.options|)), None)
      case ArrowUp =>
        KeyOutcome(s.(highlightedIndex := ArrowUpIndex(s.highlightedIndex)), None)
      case Enter =>
        if 0 <= s.highlightedIndex < |s.options| then
          var option := s.options[s.highlightedIndex];
          KeyOutcome(OnSelect(c, s, option), Some(option))
        else KeyOutcome(s, None)
      case Escape => KeyOutcome(s.(isOpen := false), None)
      case OtherKey => KeyOutcome(s, None)
  }

  /** The debounce timer fires: abort the previous request and issue a new one with the closed-over query. */
  function OnTimer(c: Config, s: TypeaheadState): (r: TimerOutcome)
    ensures Inv(s) ==> Inv(r.state)
    ensures s.timer.None? ==> r == TimerOutcome(s, None)
    ensures s.timer.Some? ==>
              && r.request.Some? && Live(r.state, r.request.value)
              && r.request.value.query == s.timer.value
              && r.request.value.paramName == c.searchField + "_like"
              && r.state.isLoading && r.state.timer.None?
              && r.state.options == s.options && r.state.highlightedIndex == s.highlightedIndex
              && forall req: Request :: req.generation <= s.generation ==> !Live(r.state, req)
  {
    match s.timer
    case None => TimerOutcome(s, None)
    case Some(query) =>
      var g := s.generation + 1;
      TimerOutcome(s.(timer := None, generation := g, aborted := false, isLoading := true),
                   Some(Request(g, c.searchField + "_like", query)))
  }

  /**
   * A request settles: a live success replaces the options by the filtered
   * response and resets the highlight; a cancelled request changes nothing
   * and is not logged; a live failure is logged and keeps the options.  The
   * `finally` clears `isLoading` in every case.
   */
  function OnSettle(c: Config, s: TypeaheadState, req: Request, resp: Response): (r: SettleOutcome)
    ensures Inv(s) ==> Inv(r.state)
    ensures !r.state.isLoading
    ensures !Live(s, req) ==> r == SettleOutcome(s.(isLoading := false), false)
    ensures Live(s, req) && resp.Loaded? ==>
              && r.state.options == FilterResponse(resp.data, req.query, c.getOptionLabel)
              && r.state.highlightedIndex == (if |r.state.options| > 0 then 0 else -1)
              && !r.logged
    ensures Live(s, req) && resp.Failed? ==> r == SettleOutcome(s.(isLoading := false), true)
    ensures r.state.inputValue == s.inputValue && r.state.isOpen == s.isOpen && r.state.timer == s.timer
  {
    if !Live(s, req) then SettleOutcome(s.(isLoading := false), false)
    else
      match resp
      case Failed => SettleOutcome(s.(isLoading := false), true)
      case Loaded(data) =>
        var filtered := FilterResponse(data, req.query, c.getOptionLabel);
        SettleOutcome(s.(options := filtered, highlightedIndex := if |filtered| > 0 then 0 else -1,
                         isLoading := false), false)
  }

  /** The focus handler reopens a non-empty list; a click outside the widget closes it. */
  function OnFocus(s: TypeaheadState): (r: TypeaheadState)
    ensures r.isOpen <==> s.isOpen || |s.options| > 0
    ensures r.(isOpen := s.isOpen) == s
  {
    if |s.options| > 0 then s.(isOpen := true) else s
  }

  function OnClickOutside(s: TypeaheadState): (r: TypeaheadState)
    ensures !r.isOpen && r.(isOpen := s.isOpen) == s
  {
    s.(isOpen := false)
  }

  // ---------------------------------------------------------------------------
  // Properties relating several events.

  /** A short query issues no request: after it, the timer has nothing to fire. */
  lemma ShortQueryIssuesNoRequest(c: Config, s: TypeaheadState, text: string)
    requires Trim(text) != s.effectQuery && !s.skipFetch && |Trim(text)| < c.minChars
    ensures OnTimer(c, OnInputChange(c, s, text)).request.None?
    ensures !ShowEmptyState(c, OnInputChange(c, s, text))
  {
  }

  /**
   * Supersession: a request issued for one query, then a request for a newer
   * query.  Whatever order they settle in, the older one's late success leaves
   * the newer one's options in place.
   */
  lemma SupersededResponseIsIgnored(c: Config, s: TypeaheadState, text2: string, data1: seq<Item>, data2: seq<Item>)
    requires s.timer.Some? && !s.skipFetch
    requires Trim(text2) != s.effectQuery && |Trim(text2)| >= c.minChars
    ensures
      var t1 := OnTimer(c, s);
      var s2 := OnInputChange(c, t1.state, text2);
      var t2 := OnTimer(c, s2);
      var s3 := OnSettle(c, t2.state, t2.request.value, Loaded(data2)).state;
      var s4 := OnSettle(c, s3, t1.request.value, Loaded(data1));
      && s4.state.options == FilterResponse(data2, Trim(text2), c.getOptionLabel)
      && !s4.logged
  {
    var t1 := OnTimer(c, s);
    var s2 := OnInputChange(c, t1.state, text2);
    assert s2.generation == t1.request.value.generation;
    var t2 := OnTimer(c, s2);
    assert t1.request.value.generation < t2.request.value.generation;
  }

  /**
   * The superseded request's `finally` still runs: if it settles while the
   * newer request is in flight, it clears `isLoading` although the newer one
   * has not answered yet.
   */
  lemma StaleFinallyClearsLoading(c: Config, s: TypeaheadState, text2: string, resp1: Response)
    requires s.timer.Some? && !s.skipFetch
    requires Trim(text2) != s.effectQuery && |Trim(text2)| >= c.minChars
    ensures
      var t1 := OnTimer(c, s);
      var t2 := OnTimer(c, OnInputChange(c, t1.state, text2));
      var s3 := OnSettle(c, t2.state, t1.request.value, resp1).state;
      && Live(s3, t2.request.value) && !s3.isLoading && s3.options == t2.state.options
  {
  }

  /** "No results" is shown once an empty answer to a live request for a long-enough query arrives. */
  lemma EmptyAnswerShowsNoResults(c: Config, s: TypeaheadState, req: Request, data: seq<Item>)
    requires Live(s, req) && HasQuery(c, s)
    requires FilterResponse(data, req.query, c.getOptionLabel) == []
    ensures ShowEmptyState(c, OnSettle(c, s, req, Loaded(data)).state)
  {
  }

  // ---------------------------------------------------------------------------
  // The component, updating its fields in place.

  class Typeahead {
    const minChars: int
    const searchField: string
    const getOptionLabel: Option<Item -> string>

    var inputValue: string
    var options: seq<Item>
    var isOpen: bool
    var isLoading: bool
    var highlightedIndex: int
    var skipFetch: bool
    var generation: nat
    var aborted: bool
    var timer: Option<string>
    var effectQuery: string

    function Cfg(): Config
      reads this
    {
      Config(minChars, searchField, getOptionLabel)
    }

    function Snapshot(): TypeaheadState
      reads this
    {
      TypeaheadState(inputValue, options, isOpen, isLoading, highlightedIndex,
                     skipFetch, generation, aborted, timer, effectQuery)
    }

    ghost predicate Valid()
      reads this
    {
      Inv(Snapshot())
    }

    constructor (minChars: int, searchField: string, getOptionLabel: Option<Item -> string>, value: Option<Item>)
      ensures Valid() && Cfg() == Config(minChars, searchField, getOptionLabel)
      ensures Snapshot() == Mount(Cfg(), value)
    {
      this.minChars := minChars;
      this.searchField := searchField;
      this.getOptionLabel := getOptionLabel;
      var caption := DeriveLabel(value, getOptionLabel);
      inputValue := caption;
      options := [];
      isOpen := false;
      isLoading := false;
      highlightedIndex := -1;
      skipFetch := false;
      generation := 0;
      aborted := false;
      timer := None;
      effectQuery := Trim(caption);
      new;
      FetchEffectBody();
    }

    method FetchEffectBody()
      modifies this
      ensures Snapshot() == EffectBody(Cfg(), old(Snapshot()))
    {
      ghost var before := Snapshot();
      if skipFetch {
        skipFetch := false;
        assert Snapshot() == before.(skipFetch := false);
        return;
      }
      if |Trim(inputValue)| < minChars {
        options := [];
        isOpen := false;
        highlightedIndex := -1;
        aborted := true;
        assert Snapshot() == before.(options := [], isOpen := false, highlightedIndex := -1, aborted := true);
        return;
      }
      isOpen := true;
      timer := Some(effectQuery);
      assert Snapshot() == before.(isOpen := true, timer := Some(before.effectQuery));
    }

    method RunFetchEffect()
      modifies this
      ensures Snapshot() == RunEffect(Cfg(), old(Snapshot()))
    {
      ghost var before := Snapshot();
      var trimmed := Trim(inputValue);
      if trimmed == effectQuery {
        return;
      }
      timer := None;
      aborted := true;
      effectQuery := trimmed;
      assert Snapshot() == before.(timer := None, aborted := true, effectQuery := trimmed);
      FetchEffectBody();
    }

    method InputChange(text: string)
      requires Valid()
      modifies this
      ensures Valid()
      ensures Snapshot() == OnInputChange(Cfg(), old(Snapshot()), text)
    {
      inputValue := text;
      if text == "" || |text| < minChars {
        isOpen := false;
      }
      RunFetchEffect();
    }

    method ValueChange(value: Option<Item>)
      requires Valid()
      modifies this
      ensures Valid()
      ensures Snapshot() == OnValue(Cfg(), old(Snapshot()), value)
    {
      inputValue := DeriveLabel(value, getOptionLabel);
      RunFetchEffect();
    }

    /** Returns the option handed to the `onSelect` callback. */
    method Select(option: Item) returns (selected: Item)
      requires Valid()
      modifies this
      ensures Valid()
      ensures Snapshot() == OnSelect(Cfg(), old(Snapshot()), option)
      ensures selected == option
    {
      ghost var before := Snapshot();
      var caption := DeriveLabel(Some(option), getOptionLabel);
      skipFetch := true;
      inputValue := caption;
      isOpen := false;
      options := [];
      highlightedIndex := -1;
      selected := option;
      ghost var rendered := Snapshot();
      assert rendered == before.(skipFetch := true, inputValue := caption, isOpen := false, options := [], highlightedIndex := -1);
      assert Inv(rendered);
      RunFetchEffect();
      assert Snapshot() == OnSelect(Cfg(), before, option);
    }

    method KeyDown(key: Key) returns (selected: Option<Item>)
      requires Valid()
      modifies this
      ensures Valid()
      ensures KeyOutcome(Snapshot(), selected) == OnKeyDown(Cfg(), old(Snapshot()), key)
    {
      selected := None;
      if !isOpen || |options| == 0 {
        return;
      }
      match key {
        case ArrowDown =>
          highlightedIndex := if highlightedIndex < |options| - 1 then highlightedIndex + 1 else highlightedIndex;
        case ArrowUp =>
          highlightedIndex := if highlightedIndex > 0 then highlightedIndex - 1 else highlightedIndex;
        case Enter =>
          if 0 <= highlightedIndex < |options| {
            var option := Select(options[highlightedIndex]);
            selected := Some(option);
          }
        case Escape =>
          isOpen := false;
        case OtherKey =>
      }
    }

    /** The debounce timer fires; returns the request sent, if any. */
    method TimerFires() returns (request: Option<Request>)
      requires Valid()
      modifies this
      ensures Valid()
      ensures TimerOutcome(Snapshot(), request) == OnTimer(Cfg(), old(Snapshot()))
    {
      request := None;
      if timer.Some? {
        var query := timer.value;
        timer := None;
        aborted := true;
        generation := generation + 1;
        aborted := false;
        isLoading := true;
        request := Some(Request(generation, searchField + "_like", query));
      }
    }

    /** The request `req` settles with `resp`; returns whether an error was logged. */
    method Settle(req: Request, resp: Response) returns (logged: bool)
      requires Valid()
      modifies this
      ensures Valid()
      ensures SettleOutcome(Snapshot(), logged) == OnSettle(Cfg(), old(Snapshot()), req, resp)
    {
      logged := false;
      if req.generation == generation && !aborted {
        match resp {
          case Loaded(data) =>
            var filtered := FilterResponse(data, req.query, getOptionLabel);
            options := filtered;
            highlightedIndex := if |filtered| > 0 then 0 else -1;
          case Failed =>
            logged := true;
        }
      }
      isLoading := false;
    }

    method Focus()
      modifies this
      ensures Snapshot() == OnFocus(old(Snapshot()))
    {
      if |options| > 0 {
        isOpen := true;
      }
    }

    method ClickOutside()
      modifies this
      ensures Snapshot() == OnClickOutside(old(Snapshot()))
    {
      isOpen := false;
    }
  }
}
