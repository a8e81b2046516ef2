/** The meaning of condition and action phrases: blackline/clt/normalize.py. */
module CltNormalize {
  import opened Results
  import opened CltIR
  import opened CltSyntax
  import Ordering
  import Text
  import VectorMemory

  datatype WordClass = ACTION | ENTITY | STATE | STRATEGY | DOMAIN | CONTROL

  /** The registered words of each class, in lower case; plugins may have added any. */
  type Vocabulary = map<WordClass, set<string>>

  predicate Has(v: Vocabulary, word: string, c: WordClass) {
    c in v && Text.Lower(word) in v[c]
  }

  datatype PhraseError =
    | EmptyPhrase | NeedsOneEntityAndState | NeedsPort | Ambiguous | PortOutOfRange | NeedsOneProtocol
    | NeedsOneAction | UnknownSubject

  function IsA(v: Vocabulary, c: WordClass): ValueNode -> bool {
    (w: ValueNode) => Has(v, w.value, c)
  }

  function NotA(v: Vocabulary, c: WordClass): ValueNode -> bool {
    (w: ValueNode) => !Has(v, w.value, c)
  }

  function IsOther(v: Vocabulary): ValueNode -> bool {
    (w: ValueNode) => !Has(v, w.value, ENTITY) && !Has(v, w.value, STATE)
  }

  function IsNumber(): ValueNode -> bool {
    (w: ValueNode) => Text.IsDigits(w.value)
  }

  function WordsOf(v: Vocabulary, phrase: seq<ValueNode>, c: WordClass): seq<ValueNode> {
    Ordering.Filter(IsA(v, c), phrase)
  }

  function Remaining(v: Vocabulary, phrase: seq<ValueNode>): seq<ValueNode> {
    Ordering.Filter(IsOther(v), phrase)
  }

  function Numbers(words: seq<ValueNode>): (r: seq<ValueNode>)
    ensures forall w :: w in r ==> Text.IsDigits(w.value)
  {
    Ordering.Filter(IsNumber(), words)
  }

  function PortCondition(remaining: seq<ValueNode>, state: string): Result<Condition, PhraseError> {
    var numbers := Numbers(remaining);
    if numbers == [] then Err(NeedsPort)
    else if |numbers| != 1 || |remaining| != 1 then Err(Ambiguous)
    else
      assert numbers[0] in numbers;
      var port := Text.Number(numbers[0].value);
      if !(1 <= port <= 65535) then Err(PortOutOfRange) else Ok(Condition("port", Text.Decimal(port), state))
  }

  function ServiceCondition(v: Vocabulary, remaining: seq<ValueNode>, state: string): Result<Condition, PhraseError> {
    var domains := WordsOf(v, remaining, DOMAIN);
    if |domains| != 1 || |remaining| != 1 then Err(NeedsOneProtocol)
    else Ok(Condition("service", Text.Lower(domains[0].value), state))
  }

  /** One entity, one state and one value, in any order. */
  function NormalizeCondition(v: Vocabulary, phrase: seq<ValueNode>): Result<Condition, PhraseError> {
    var entities, states := WordsOf(v, phrase, ENTITY), WordsOf(v, phrase, STATE);
    if phrase == [] then Err(EmptyPhrase)
    else if |entities| != 1 || |states| != 1 then Err(NeedsOneEntityAndState)
    else
      ValueCondition(v, Text.Lower(entities[0].value), Remaining(v, phrase), Text.Lower(states[0].value))
  }

  /** What the words that are neither the entity nor the state must be, given the entity. */
  function ValueCondition(v: Vocabulary, entity: string, remaining: seq<ValueNode>, state: string): Result<Condition, PhraseError> {
    if entity == "port" then PortCondition(remaining, state)
    else if entity == "service" then ServiceCondition(v, remaining, state)
    else if |remaining| != 1 then Err(Ambiguous)
    else Ok(Condition(entity, remaining[0].value, state))
  }

  /** One action word and at most one subject, in any order. */
  function NormalizeAction(v: Vocabulary, phrase: seq<ValueNode>): Result<ActionIntent, PhraseError> {
    var actions := WordsOf(v, phrase, ACTION);
    var subjects := Ordering.Filter(NotA(v, ACTION), phrase);
    if phrase == [] then Err(EmptyPhrase)
    else if |actions| != 1 then Err(NeedsOneAction)
    else
      var verb := Text.Lower(actions[0].value);
      if subjects == [] then Ok(ActionIntent(verb, ""))
      else if |subjects| != 1 then Err(Ambiguous)
      else if !Has(v, subjects[0].value, DOMAIN) && !Has(v, subjects[0].value, ENTITY) then Err(UnknownSubject)
      else Ok(ActionIntent(verb, Text.Lower(subjects[0].value)))
  }

  // ---------------------------------------------------------------- word order plays no part

  lemma {:induction false} FilterCounts<T(!new)>(keep: T -> bool, s: seq<T>, x: T)
    ensures multiset(Ordering.Filter(keep, s))[x] == if keep(x) then multiset(s)[x] else 0
  {
    if s != [] {
      FilterCounts(keep, s[1..], x);
      assert s == [s[0]] + s[1..];
    }
  }

  lemma FilterPermuted<T(!new)>(keep: T -> bool, s: seq<T>, t: seq<T>)
    requires multiset(s) == multiset(t)
    ensures multiset(Ordering.Filter(keep, s)) == multiset(Ordering.Filter(keep, t))
    ensures |Ordering.Filter(keep, s)| == |Ordering.Filter(keep, t)|
    ensures |Ordering.Filter(keep, s)| == 1 ==> Ordering.Filter(keep, s) == Ordering.Filter(keep, t)
  {
    var a, b := Ordering.Filter(keep, s), Ordering.Filter(keep, t);
    forall x ensures multiset(a)[x] == multiset(b)[x] {
      FilterCounts(keep, s, x);
      FilterCounts(keep, t, x);
    }
    hide Ordering.Filter;
    SamePhrase(a, b);
    if |a| == 1 { SameWord(a, b); }
  }

  lemma SameWord<T>(a: seq<T>, b: seq<T>)
    requires multiset(a) == multiset(b) && |a| == |b| == 1
    ensures a == b
  {
    assert a == [a[0]] && b == [b[0]];
    assert b[0] in multiset(a);
  }

  /** Every permutation of a condition phrase gets the same verdict and the same condition. */
  lemma ConditionOrderIsFree(v: Vocabulary, phrase: seq<ValueNode>, other: seq<ValueNode>)
    requires multiset(phrase) == multiset(other)
    ensures NormalizeCondition(v, other) == NormalizeCondition(v, phrase)
  {
    hide Ordering.Filter, Has, Text.Lower, ValueCondition, IsA, IsOther;
    SamePhrase(phrase, other);
    FilterPermuted(IsA(v, ENTITY), phrase, other);
    FilterPermuted(IsA(v, STATE), phrase, other);
    FilterPermuted(IsOther(v), phrase, other);
    var entities, states := WordsOf(v, phrase, ENTITY), WordsOf(v, phrase, STATE);
    if |entities| == 1 && |states| == 1 {
      ValueOrderIsFree(v, Text.Lower(entities[0].value), Remaining(v, phrase), Remaining(v, other), Text.Lower(states[0].value));
    }
  }

  lemma ValueOrderIsFree(v: Vocabulary, entity: string, left: seq<ValueNode>, left': seq<ValueNode>, state: string)
    requires multiset(left) == multiset(left')
    ensures ValueCondition(v, entity, left', state) == ValueCondition(v, entity, left, state)
  {
    hide PortCondition, ServiceCondition;
    SamePhrase(left, left');
    if |left| == 1 { SameWord(left, left'); }
    PortOrderIsFree(left, left', state);
    ServiceOrderIsFree(v, left, left', state);
  }

  lemma PortOrderIsFree(left: seq<ValueNode>, left': seq<ValueNode>, state: string)
    requires multiset(left) == multiset(left')
    ensures PortCondition(left', state) == PortCondition(left, state)
  {
    hide Ordering.Filter, Text.Decimal, Text.Number, Text.IsDigits, IsNumber;
    SamePhrase(left, left');
    FilterPermuted(IsNumber(), left, left');
  }

  lemma ServiceOrderIsFree(v: Vocabulary, left: seq<ValueNode>, left': seq<ValueNode>, state: string)
    requires multiset(left) == multiset(left')
    ensures ServiceCondition(v, left', state) == ServiceCondition(v, left, state)
  {
    hide Ordering.Filter, Text.Lower, IsA;
    SamePhrase(left, left');
    FilterPermuted(IsA(v, DOMAIN), left, left');
  }

  lemma SamePhrase<T>(s: seq<T>, t: seq<T>)
    requires multiset(s) == multiset(t)
    ensures |s| == |t|
  {
    assert |s| == |multiset(s)| == |multiset(t)| == |t|;
  }

  /** So does every permutation of an action phrase. */
  lemma ActionOrderIsFree(v: Vocabulary, phrase: seq<ValueNode>, other: seq<ValueNode>)
    requires multiset(phrase) == multiset(other)
    ensures NormalizeAction(v, other) == NormalizeAction(v, phrase)
  {
    hide Ordering.Filter, Has, Text.Lower, IsA, NotA;
    SamePhrase(phrase, other);
    FilterPermuted(IsA(v, ACTION), phrase, other);
    FilterPermuted(NotA(v, ACTION), phrase, other);
  }

  // ---------------------------------------------------------------- what an accepted condition looks like

  /**
   * An accepted condition is spelled the way the state indexes spell it, so incremental evaluation of compiled rules
   * is complete; an accepted port is the canonical decimal of a number from 1 to 65535.
   */
  lemma AcceptedIsCanonical(v: Vocabulary, phrase: seq<ValueNode>)
    ensures var r := NormalizeCondition(v, phrase);
            r.Ok? ==>
              && VectorMemory.Canonical(r.value) && Text.Lower(r.value.state) == r.value.state
              && (r.value.entity == "port" ==> Text.Canonical(r.value.value) && 1 <= Text.Number(r.value.value) <= 65535)
  {
    hide Ordering.Filter, Has, Text.Canonical, PortCondition, ServiceCondition, WordsOf, Remaining, Text.Lower, Text.Number;
    var states, remaining := WordsOf(v, phrase, STATE), Remaining(v, phrase);
    if |states| == 1 {
      var state := Text.Lower(states[0].value);
      Text.LowerTwice(states[0].value);
      PortIsCanonical(remaining, state);
      ServiceIsCanonical(v, remaining, state);
    }
  }

  /**
   * Which accepted conditions can ever hold: those on ports and services, apart from empty words, and of the others
   * those whose value is written in lower case, since observations are stored in lower case and the value is not
   * lowered.
   */
  lemma AcceptedCanHold(v: Vocabulary, phrase: seq<ValueNode>)
    ensures var r := NormalizeCondition(v, phrase);
            r.Ok? ==>
              var c := r.value;
              VectorMemory.CanHold(c) <==>
                if c.entity == "port" then c.state != ""
                else if c.entity == "service" then c.value != "" && c.state != ""
                else Text.Lower(c.value) == c.value
  {
    AcceptedIsCanonical(v, phrase);
    AcceptedEntityIsLower(v, phrase);
    var r := NormalizeCondition(v, phrase);
    hide NormalizeCondition, VectorMemory.CanHold, Text.Lower, Text.Number;
    if r.Ok? { VectorMemory.SatisfiableIff(r.value); }
  }

  lemma AcceptedEntityIsLower(v: Vocabulary, phrase: seq<ValueNode>)
    ensures var r := NormalizeCondition(v, phrase);
            r.Ok? ==> Text.Lower(r.value.entity) == r.value.entity && (r.value.entity == "port" ==> r.value.value != "")
  {
    hide Ordering.Filter, Has, WordsOf, Remaining, Text.Lower, Text.Decimal, Text.Number;
    var entities := WordsOf(v, phrase, ENTITY);
    if |entities| == 1 { Text.LowerTwice(entities[0].value); }
  }

  lemma PortIsCanonical(remaining: seq<ValueNode>, state: string)
    ensures var r := PortCondition(remaining, state);
            r.Ok? ==> r.value.entity == "port" && r.value.state == state &&
                      Text.Canonical(r.value.value) && 1 <= Text.Number(r.value.value) <= 65535
  {
    var numbers := Numbers(remaining);
    if |numbers| == 1 {
      assert numbers[0] in numbers;
      Text.DecimalIsCanonical(Text.Number(numbers[0].value));
      Text.NumberOfDecimal(Text.Number(numbers[0].value));
    }
    hide Ordering.Filter, Text.Decimal, Text.Number, Text.Canonical;
  }

  lemma ServiceIsCanonical(v: Vocabulary, remaining: seq<ValueNode>, state: string)
    ensures var r := ServiceCondition(v, remaining, state);
            r.Ok? ==> r.value.entity == "service" && r.value.state == state && Text.Lower(r.value.value) == r.value.value
  {
    var domains := WordsOf(v, remaining, DOMAIN);
    if |domains| == 1 { Text.LowerTwice(domains[0].value); }
    hide Ordering.Filter, Has, Text.Lower;
  }

  // ---------------------------------------------------------------- what an accepted phrase consists of

  /** The word that gives a condition its value suits the entity, and c is what they mean. */
  predicate Suits(v: Vocabulary, entity: string, x: ValueNode, state: string, c: Condition) {
    && c.entity == entity && c.state == state
    && (entity == "port" ==>
          Text.IsDigits(x.value) && 1 <= Text.Number(x.value) <= 65535 && c.value == Text.Decimal(Text.Number(x.value)))
    && (entity == "service" ==> Has(v, x.value, DOMAIN) && c.value == Text.Lower(x.value))
    && (entity != "port" && entity != "service" ==> c.value == x.value)
  }

  /** The three words of a condition and what they mean together. */
  predicate Means(v: Vocabulary, e: ValueNode, x: ValueNode, s: ValueNode, c: Condition) {
    && IsA(v, ENTITY)(e) && !IsA(v, STATE)(e)
    && IsA(v, STATE)(s) && !IsA(v, ENTITY)(s)
    && IsOther(v)(x)
    && Suits(v, Text.Lower(e.value), x, Text.Lower(s.value), c)
  }

  /** No word of the phrase is registered as an entity and as a state. */
  predicate Unambiguous(v: Vocabulary, phrase: seq<ValueNode>) {
    forall w :: w in phrase ==> !(Has(v, w.value, ENTITY) && Has(v, w.value, STATE))
  }

  lemma {:induction false} WordsPartition(v: Vocabulary, phrase: seq<ValueNode>)
    requires Unambiguous(v, phrase)
    ensures multiset(phrase) == multiset(WordsOf(v, phrase, ENTITY)) + multiset(WordsOf(v, phrase, STATE)) + multiset(Remaining(v, phrase))
  {
    forall w ensures multiset(phrase)[w] ==
        multiset(WordsOf(v, phrase, ENTITY))[w] + multiset(WordsOf(v, phrase, STATE))[w] + multiset(Remaining(v, phrase))[w]
    {
      FilterCounts(IsA(v, ENTITY), phrase, w);
      FilterCounts(IsA(v, STATE), phrase, w);
      FilterCounts(IsOther(v), phrase, w);
      assert multiset(phrase)[w] > 0 ==> w in phrase;
    }
  }

  lemma FilterThree<T(!new)>(keep: T -> bool, a: T, b: T, c: T)
    ensures Ordering.Filter(keep, [a, b, c]) ==
            (if keep(a) then [a] else []) + (if keep(b) then [b] else []) + (if keep(c) then [c] else [])
  {
    assert [a, b, c][1..] == [b, c] && [b, c][1..] == [c] && [c][1..] == [];
    FilterOne(keep, c);
    assert Ordering.Filter(keep, [b, c]) == (if keep(b) then [b] else []) + Ordering.Filter(keep, [c]);
  }

  lemma FilterOne<T(!new)>(keep: T -> bool, a: T)
    ensures Ordering.Filter(keep, [a]) == if keep(a) then [a] else []
  {
    assert [a][1..] == [];
  }

  lemma OneValue(v: Vocabulary, entity: string, x: ValueNode, state: string, c: Condition)
    ensures ValueCondition(v, entity, [x], state) == Ok(c) <==> Suits(v, entity, x, state, c)
  {
    hide Ordering.Filter, Text.Lower, Text.Decimal, Text.Number, Has;
    FilterOne(IsNumber(), x);
    FilterOne(IsA(v, DOMAIN), x);
  }

  lemma OneRemains(v: Vocabulary, entity: string, remaining: seq<ValueNode>, state: string)
    ensures ValueCondition(v, entity, remaining, state).Ok? ==> |remaining| == 1
  {
  }

  lemma OtherIsNeither(v: Vocabulary, x: ValueNode)
    ensures IsOther(v)(x) <==> !IsA(v, ENTITY)(x) && !IsA(v, STATE)(x)
  {
  }

  lemma ThreeWords(v: Vocabulary, e: ValueNode, x: ValueNode, s: ValueNode, c: Condition)
    requires Means(v, e, x, s, c)
    ensures NormalizeCondition(v, [e, x, s]) == Ok(c)
  {
    hide Ordering.Filter, Text.Lower, ValueCondition, Suits, IsA, IsOther;
    OtherIsNeither(v, e);
    OtherIsNeither(v, x);
    OtherIsNeither(v, s);
    FilterThree(IsA(v, ENTITY), e, x, s);
    FilterThree(IsA(v, STATE), e, x, s);
    FilterThree(IsOther(v), e, x, s);
    hide Has;
    assert WordsOf(v, [e, x, s], ENTITY) == [e] && WordsOf(v, [e, x, s], STATE) == [s] && Remaining(v, [e, x, s]) == [x];
    OneValue(v, Text.Lower(e.value), x, Text.Lower(s.value), c);
  }

  /** One word that is both the entity and the state, and one that gives the value. */
  predicate MeansTwice(v: Vocabulary, w: ValueNode, x: ValueNode, c: Condition) {
    && IsA(v, ENTITY)(w) && IsA(v, STATE)(w) && IsOther(v)(x)
    && Suits(v, Text.Lower(w.value), x, Text.Lower(w.value), c)
  }

  lemma TwoWords(v: Vocabulary, w: ValueNode, x: ValueNode, c: Condition)
    requires MeansTwice(v, w, x, c)
    ensures NormalizeCondition(v, [w, x]) == Ok(c)
  {
    hide Ordering.Filter, Text.Lower, ValueCondition, Suits, IsA, IsOther;
    OtherIsNeither(v, w);
    OtherIsNeither(v, x);
    FilterTwo(IsA(v, ENTITY), w, x);
    FilterTwo(IsA(v, STATE), w, x);
    FilterTwo(IsOther(v), w, x);
    hide Has;
    assert WordsOf(v, [w, x], ENTITY) == [w] && WordsOf(v, [w, x], STATE) == [w] && Remaining(v, [w, x]) == [x];
    OneValue(v, Text.Lower(w.value), x, Text.Lower(w.value), c);
  }

  /** The phrase is one entity, one state and one other word that suits the entity, in some order. */
  ghost predicate SaysInThree(v: Vocabulary, phrase: seq<ValueNode>, c: Condition) {
    exists e, x, s :: multiset(phrase) == multiset([e, x, s]) && Means(v, e, x, s, c)
  }

  /** The phrase is one word that is entity and state at once and one other word that suits it, in some order. */
  ghost predicate SaysInTwo(v: Vocabulary, phrase: seq<ValueNode>, c: Condition) {
    exists w, x :: multiset(phrase) == multiset([w, x]) && MeansTwice(v, w, x, c)
  }

  /** These are exactly the phrases accepted as a condition, for every vocabulary. */
  lemma ConditionMeaning(v: Vocabulary, phrase: seq<ValueNode>, c: Condition)
    ensures NormalizeCondition(v, phrase) == Ok(c) <==> SaysInThree(v, phrase, c) || SaysInTwo(v, phrase, c)
  {
    hide Means, MeansTwice, NormalizeCondition, Unambiguous;
    if NormalizeCondition(v, phrase) == Ok(c) { AcceptedSays(v, phrase, c); }
    if e, x, s :| multiset(phrase) == multiset([e, x, s]) && Means(v, e, x, s, c) {
      ThreeWords(v, e, x, s, c);
      ConditionOrderIsFree(v, [e, x, s], phrase);
    }
    if w, x :| multiset(phrase) == multiset([w, x]) && MeansTwice(v, w, x, c) {
      TwoWords(v, w, x, c);
      ConditionOrderIsFree(v, [w, x], phrase);
    }
  }

  lemma AcceptedSays(v: Vocabulary, phrase: seq<ValueNode>, c: Condition)
    requires NormalizeCondition(v, phrase) == Ok(c)
    ensures SaysInThree(v, phrase, c) || SaysInTwo(v, phrase, c)
  {
    var entities, states := WordsOf(v, phrase, ENTITY), WordsOf(v, phrase, STATE);
    hide Text.Lower, ValueCondition, Suits, IsOther, WordsOf, Remaining, Means, MeansTwice;
    WordsAreThose(v, phrase);
    if IsA(v, STATE)(entities[0]) {
      assert entities[0] in entities && entities[0] in states;
      Single(states);
      var w, x := AcceptedTwo(v, phrase, c);
    } else {
      Single(entities);
      var e, x, s := AcceptedWords(v, phrase, c);
    }
  }

  lemma WordsAreThose(v: Vocabulary, phrase: seq<ValueNode>)
    ensures forall w :: w in WordsOf(v, phrase, ENTITY) <==> w in phrase && Has(v, w.value, ENTITY)
    ensures forall w :: w in WordsOf(v, phrase, STATE) <==> w in phrase && Has(v, w.value, STATE)
  {
  }

  /** With one entity that is the one state too, the other words are the remaining ones. */
  lemma AcceptedTwo(v: Vocabulary, phrase: seq<ValueNode>, c: Condition) returns (w: ValueNode, x: ValueNode)
    requires NormalizeCondition(v, phrase) == Ok(c)
    requires WordsOf(v, phrase, ENTITY) == WordsOf(v, phrase, STATE)
    ensures multiset(phrase) == multiset([w, x]) && MeansTwice(v, w, x, c)
  {
    hide Text.Lower, ValueCondition, Suits, IsA, IsOther, WordsOf, Remaining;
    var entities, remaining := WordsOf(v, phrase, ENTITY), Remaining(v, phrase);
    OneRemains(v, Text.Lower(entities[0].value), remaining, Text.Lower(entities[0].value));
    w, x := entities[0], remaining[0];
    TwicePartition(v, phrase);
    Pair(entities, remaining);
    assert w in entities && x in remaining;
    InThose(v, phrase, w, x);
    OneValue(v, Text.Lower(w.value), x, Text.Lower(w.value), c);
    Single(remaining);
  }

  lemma InThose(v: Vocabulary, phrase: seq<ValueNode>, w: ValueNode, x: ValueNode)
    requires w in WordsOf(v, phrase, ENTITY) && w in WordsOf(v, phrase, STATE) && x in Remaining(v, phrase)
    ensures IsA(v, ENTITY)(w) && IsA(v, STATE)(w) && IsOther(v)(x)
  {
  }

  lemma Pair<T>(a: seq<T>, b: seq<T>)
    requires |a| == |b| == 1
    ensures multiset(a) + multiset(b) == multiset([a[0], b[0]])
  {
    Single(a);
    Single(b);
    assert [a[0], b[0]] == [a[0]] + [b[0]];
  }

  lemma TwicePartition(v: Vocabulary, phrase: seq<ValueNode>)
    requires WordsOf(v, phrase, ENTITY) == WordsOf(v, phrase, STATE)
    ensures multiset(phrase) == multiset(WordsOf(v, phrase, ENTITY)) + multiset(Remaining(v, phrase))
  {
    var entities, states, remaining := WordsOf(v, phrase, ENTITY), WordsOf(v, phrase, STATE), Remaining(v, phrase);
    forall w ensures multiset(phrase)[w] == multiset(entities)[w] + multiset(remaining)[w] {
      FilterCounts(IsA(v, ENTITY), phrase, w);
      FilterCounts(IsA(v, STATE), phrase, w);
      FilterCounts(IsOther(v), phrase, w);
      assert multiset(entities)[w] == multiset(states)[w];
    }
  }

  /** With an entity that is not a state, no word of the phrase is both. */
  lemma AcceptedWords(v: Vocabulary, phrase: seq<ValueNode>, c: Condition) returns (e: ValueNode, x: ValueNode, s: ValueNode)
    requires NormalizeCondition(v, phrase) == Ok(c) && !Has(v, WordsOf(v, phrase, ENTITY)[0].value, STATE)
    ensures multiset(phrase) == multiset([e, x, s]) && Means(v, e, x, s, c)
  {
    WordsAreThose(v, phrase);
    Single(WordsOf(v, phrase, ENTITY));
    hide Text.Lower, ValueCondition, Suits, IsA, IsOther, WordsOf, Remaining;
    var entities, states, remaining := WordsOf(v, phrase, ENTITY), WordsOf(v, phrase, STATE), Remaining(v, phrase);
    assert Unambiguous(v, phrase);
    hide Unambiguous;
    OneRemains(v, Text.Lower(entities[0].value), remaining, Text.Lower(states[0].value));
    e, x, s := entities[0], remaining[0], states[0];
    WordsPartition(v, phrase);
    Trio(entities, states, remaining);
    WordsAre(v, phrase, e, x, s);
    OneValue(v, Text.Lower(e.value), x, Text.Lower(s.value), c);
    Single(remaining);
  }

  lemma Trio<T>(a: seq<T>, b: seq<T>, c: seq<T>)
    requires |a| == |b| == |c| == 1
    ensures multiset(a) + multiset(b) + multiset(c) == multiset([a[0], c[0], b[0]])
  {
    Single(a);
    Single(b);
    Single(c);
    ThreeOf(a[0], b[0], c[0]);
  }

  lemma Single<T>(a: seq<T>)
    requires |a| == 1
    ensures a == [a[0]]
  {
  }

  lemma ThreeOf<T>(a: T, b: T, c: T)
    ensures multiset([a]) + multiset([b]) + multiset([c]) == multiset([a, c, b])
  {
    var ac := [a] + [c];
    assert [a, c, b] == ac + [b];
    assert multiset(ac) == multiset([a]) + multiset([c]);
    assert multiset(ac + [b]) == multiset(ac) + multiset([b]);
  }

  lemma WordsAre(v: Vocabulary, phrase: seq<ValueNode>, e: ValueNode, x: ValueNode, s: ValueNode)
    requires Unambiguous(v, phrase)
    requires e in WordsOf(v, phrase, ENTITY) && s in WordsOf(v, phrase, STATE) && x in Remaining(v, phrase)
    ensures IsA(v, ENTITY)(e) && !IsA(v, STATE)(e) && IsA(v, STATE)(s) && !IsA(v, ENTITY)(s) && IsOther(v)(x)
  {
    assert e in phrase && s in phrase;
  }

  predicate NamesAction(v: Vocabulary, a: ValueNode, i: ActionIntent) {
    IsA(v, ACTION)(a) && i == ActionIntent(Text.Lower(a.value), "")
  }

  predicate NamesActionOn(v: Vocabulary, a: ValueNode, x: ValueNode, i: ActionIntent) {
    && IsA(v, ACTION)(a) && NotA(v, ACTION)(x)
    && (Has(v, x.value, DOMAIN) || Has(v, x.value, ENTITY))
    && i == ActionIntent(Text.Lower(a.value), Text.Lower(x.value))
  }

  lemma {:induction false} ActionsAndOthers(v: Vocabulary, phrase: seq<ValueNode>)
    ensures |Ordering.Filter(IsA(v, ACTION), phrase)| + |Ordering.Filter(NotA(v, ACTION), phrase)| == |phrase|
  {
    if phrase != [] { ActionsAndOthers(v, phrase[1..]); }
  }

  lemma FilterTwo<T(!new)>(keep: T -> bool, a: T, b: T)
    ensures Ordering.Filter(keep, [a, b]) == (if keep(a) then [a] else []) + (if keep(b) then [b] else [])
  {
    assert [a, b][1..] == [b];
    FilterOne(keep, b);
  }

  /** A phrase is accepted as an action exactly when it is one action word, or one with a known subject on either side. */
  lemma ActionMeaning(v: Vocabulary, phrase: seq<ValueNode>, i: ActionIntent)
    ensures NormalizeAction(v, phrase) == Ok(i) <==>
            || (|phrase| == 1 && NamesAction(v, phrase[0], i))
            || (|phrase| == 2 && (NamesActionOn(v, phrase[0], phrase[1], i) || NamesActionOn(v, phrase[1], phrase[0], i)))
  {
    hide Ordering.Filter, Has, Text.Lower;
    ActionsAndOthers(v, phrase);
    if |phrase| == 1 {
      assert phrase == [phrase[0]];
      FilterOne(IsA(v, ACTION), phrase[0]);
      FilterOne(NotA(v, ACTION), phrase[0]);
    }
    if |phrase| == 2 {
      assert phrase == [phrase[0], phrase[1]];
      FilterTwo(IsA(v, ACTION), phrase[0], phrase[1]);
      FilterTwo(NotA(v, ACTION), phrase[0], phrase[1]);
    }
  }
}
