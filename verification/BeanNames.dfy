/** Placeholder substitution in MBean names and metric keys. */
module BeanNames {
  import opened Strings

  const CONSUMER_HOLDER := "%CONSUMER%"
  const PRODUCER_HOLDER := "%PRODUCER%"
  const TOPIC_HOLDER := "%TOPIC%"

  /** `strings.Replace(s, old, new, -1)`: every non-overlapping occurrence, found from left to right. */
  function Replace(s: string, old': string, new': string): string
    requires old' != ""
    decreases |s|
  {
    if s == "" then ""
    else if HasPrefix(s, old') then new' + Replace(s[|old'|..], old', new')
    else [s[0]] + Replace(s[1..], old', new')
  }

  function ApplyConsumerName(consumerName: string, beanName: string): string {
    Replace(beanName, CONSUMER_HOLDER, consumerName)
  }

  function ApplyProducerName(producerName: string, beanName: string): string {
    Replace(beanName, PRODUCER_HOLDER, producerName)
  }

  function ApplyTopicName(topicName: string, beanName: string): string {
    Replace(beanName, TOPIC_HOLDER, topicName)
  }

  function ApplyConsumerTopicName(consumerName: string, topicName: string, beanName: string): string {
    Replace(Replace(beanName, CONSUMER_HOLDER, consumerName), TOPIC_HOLDER, topicName)
  }

  function ApplyProducerTopicName(producerName: string, topicName: string, beanName: string): string {
    Replace(Replace(beanName, PRODUCER_HOLDER, producerName), TOPIC_HOLDER, topicName)
  }

  // ---------------------------------------------------------------- templates

  datatype Hole = Client | Topic

  /** Literal text alternating with placeholders. */
  datatype Template = Tail(text: string) | Cons(text: string, hole: Hole, rest: Template)

  /** The words between the percent signs of the two placeholders. */
  datatype Words = Words(client: string, topic: string) {
    function Of(hole: Hole): string {
      if hole.Client? then client else topic
    }

    predicate Proper() {
      client != "" && topic != "" && client != topic && NoPercent(client) && NoPercent(topic)
    }
  }

  const CONSUMER_WORDS := Words("CONSUMER", "TOPIC")
  const PRODUCER_WORDS := Words("PRODUCER", "TOPIC")

  predicate NoPercent(s: string) {
    '%' !in s
  }

  function Holder(word: string): string {
    "%" + word + "%"
  }

  /** The string that the template stands for in the source. */
  function Text(t: Template, w: Words): string {
    match t
    case Tail(text) => text
    case Cons(text, hole, rest) => text + Holder(w.Of(hole)) + Text(rest, w)
  }

  /** Simultaneous substitution of both placeholders. */
  function Fill(t: Template, client: string, topic: string): string {
    match t
    case Tail(text) => text
    case Cons(text, hole, rest) => text + (if hole.Client? then client else topic) + Fill(rest, client, topic)
  }

  predicate Plain(t: Template) {
    NoPercent(t.text) && (t.Cons? ==> Plain(t.rest))
  }

  /**
   * No placeholder of the other kind is followed by exactly the word of `hole` and another placeholder: there the
   * closing percent sign of the one, the word and the opening percent sign of the other would read as a placeholder.
   */
  predicate CleanFor(t: Template, w: Words, hole: Hole) {
    t.Cons? ==>
      && (t.hole != hole && t.rest.Cons? ==> t.rest.text != w.Of(hole))
      && CleanFor(t.rest, w, hole)
  }

  function Prepend(s: string, t: Template): Template {
    match t
    case Tail(text) => Tail(s + text)
    case Cons(text, hole, rest) => Cons(s + text, hole, rest)
  }

  /** The template left when one kind of placeholder has been filled in. */
  function Merge(t: Template, hole: Hole, name: string): Template {
    match t
    case Tail(text) => t
    case Cons(text, h, rest) =>
      if h == hole then Prepend(text + name, Merge(rest, hole, name)) else Cons(text, h, Merge(rest, hole, name))
  }

  // ---------------------------------------------------------------- one replacement pass

  lemma {:induction false} SkipLiteral(x: string, s: string, word: string, name: string)
    requires NoPercent(x)
    ensures Replace(x + s, Holder(word), name) == x + Replace(s, Holder(word), name)
  {
    if x == "" {
      assert x + s == s;
    } else {
      assert (x + s)[0] == x[0] && (x + s)[1..] == x[1..] + s;
      assert Holder(word)[0] == '%' && x[0] in x;
      if HasPrefix(x + s, Holder(word)) {
        HeadsAgree(x + s, Holder(word));
      }
      SkipLiteral(x[1..], s, word, name);
      assert x == [x[0]] + x[1..];
    }
  }

  lemma ReplaceHolder(word: string, s: string, name: string)
    ensures Replace(Holder(word) + s, Holder(word), name) == name + Replace(s, Holder(word), name)
  {
    var h := Holder(word);
    assert (h + s)[..|h|] == h && (h + s)[|h|..] == s;
  }

  /** What a match that starts at a percent sign looks like. */
  lemma MatchShape(x: string, word: string)
    requires NoPercent(word) && HasPrefix("%" + x, Holder(word))
    ensures |word| < |x| && x[..|word|] == word && x[|word|] == '%'
    ensures IndexOf(x, '%') == |word|
  {
    var h := Holder(word);
    var y := "%" + x;
    AfterMatch(x, word, y[|h|..]);
  }

  lemma AfterMatch(x: string, word: string, rest: string)
    requires NoPercent(word) && "%" + x == Holder(word) + rest
    ensures |word| < |x| && x[..|word|] == word && x[|word|] == '%'
    ensures IndexOf(x, '%') == |word|
  {
    Regroup("%", word, "%", rest);
    SplitAt("%", x, "%", word + ("%" + rest));
    Separated(x, word, '%', rest);
    hide Holder;
    FirstIndex(word, '%', rest);
    assert word + "%" + rest == word + ("%" + rest);
  }

  /** A percent-free run that ends in a percent sign can only match the same run. */
  lemma RunsMatch(a: string, b: string, s: string)
    requires NoPercent(a) && NoPercent(b)
    ensures HasPrefix("%" + (a + "%" + s), Holder(b)) <==> a == b
  {
    var x := a + "%" + s;
    FirstIndex(a, '%', s);
    if HasPrefix("%" + x, Holder(b)) {
      MatchShape(x, b);
      assert x[..|a|] == a;
    }
    if a == b {
      var h := Holder(b);
      assert "%" + x == h + s;
      assert (h + s)[..|h|] == h;
    }
  }

  lemma NoMatchWithoutPercent(a: string, b: string)
    requires NoPercent(a) && NoPercent(b)
    ensures !HasPrefix("%" + a, Holder(b))
  {
    NoIndex(a, '%');
    if HasPrefix("%" + a, Holder(b)) {
      MatchShape(a, b);
    }
  }

  /** A closing percent sign starts a match exactly if the next literal is the word and a placeholder follows. */
  lemma ClosingPercent(rest: Template, w: Words, word: string)
    requires Plain(rest) && NoPercent(word)
    ensures HasPrefix("%" + Text(rest, w), Holder(word)) <==> rest.Cons? && rest.text == word
  {
    match rest
    case Tail(text) => NoMatchWithoutPercent(text, word);
    case Cons(text, hole, more) =>
      var after := w.Of(hole) + "%" + Text(more, w);
      assert Text(rest, w) == text + "%" + after;
      RunsMatch(text, word, after);
  }

  /** Skipping a placeholder of the other kind whose closing percent sign starts no match. */
  lemma SkipOtherHolder(other: string, word: string, s: string, name: string)
    requires NoPercent(other) && NoPercent(word) && other != word
    requires !HasPrefix("%" + s, Holder(word))
    ensures Replace(Holder(other) + s, Holder(word), name) == Holder(other) + Replace(s, Holder(word), name)
  {
    RunsMatch(other, word, s);
    assert Holder(other) + s == "%" + (other + "%" + s);
    SkipPercent(other + "%" + s, word, name);
    assert other + "%" + s == other + ("%" + s);
    SkipLiteral(other, "%" + s, word, name);
    SkipPercent(s, word, name);
  }

  lemma SkipPercent(x: string, word: string, name: string)
    requires !HasPrefix("%" + x, Holder(word))
    ensures Replace("%" + x, Holder(word), name) == "%" + Replace(x, Holder(word), name)
  {
    assert ("%" + x)[1..] == x;
  }

  /** Substituting one kind of placeholder in the text is substituting it in a clean template. */
  lemma {:induction false} ReplaceIsMerge(t: Template, w: Words, hole: Hole, name: string)
    requires w.Proper() && Plain(t) && CleanFor(t, w, hole)
    ensures Replace(Text(t, w), Holder(w.Of(hole)), name) == Text(Merge(t, hole, name), w)
  {
    hide Replace, HasPrefix, Holder;
    var word := w.Of(hole);
    match t
    case Tail(text) =>
      EmptyReplace(word, name);
      SkipLiteral(text, "", word, name);
      assert text + "" == text;
    case Cons(text, h, rest) =>
      ReplaceIsMerge(rest, w, hole, name);
      var after := Holder(w.Of(h)) + Text(rest, w);
      assert Text(t, w) == text + after;
      SkipLiteral(text, after, word, name);
      if h == hole {
        ReplaceHolder(word, Text(rest, w), name);
        PrependText(text + name, Merge(rest, hole, name), w);
      } else {
        ClosingPercent(rest, w, word);
        SkipOtherHolder(w.Of(h), word, Text(rest, w), name);
      }
  }

  lemma EmptyReplace(word: string, name: string)
    ensures Replace("", Holder(word), name) == ""
  {
  }

  lemma PrependText(s: string, t: Template, w: Words)
    ensures Text(Prepend(s, t), w) == s + Text(t, w)
  {
    match t
    case Tail(_) =>
    case Cons(text, hole, rest) =>
      assert s + text + Holder(w.Of(hole)) + Text(rest, w) == s + (text + Holder(w.Of(hole)) + Text(rest, w));
  }

  // ---------------------------------------------------------------- both passes

  predicate OnlyTopics(t: Template) {
    t.Cons? ==> t.hole.Topic? && OnlyTopics(t.rest)
  }

  lemma {:induction false} MergedClient(t: Template, client: string)
    requires Plain(t) && NoPercent(client)
    ensures Plain(Merge(t, Client, client)) && OnlyTopics(Merge(t, Client, client))
  {
    if t.Cons? {
      MergedClient(t.rest, client);
    }
  }

  lemma {:induction false} OnlyTopicsClean(t: Template, w: Words)
    requires OnlyTopics(t)
    ensures CleanFor(t, w, Topic)
  {
    if t.Cons? {
      OnlyTopicsClean(t.rest, w);
    }
  }

  lemma {:induction false} MergesFill(t: Template, client: string, topic: string)
    ensures Merge(Merge(t, Client, client), Topic, topic) == Tail(Fill(t, client, topic))
  {
    if t.Cons? {
      MergesFill(t.rest, client, topic);
      if t.hole.Client? {
        MergePrepend(t.text + client, Merge(t.rest, Client, client), topic);
      }
    }
  }

  lemma MergePrepend(s: string, t: Template, topic: string)
    ensures Merge(Prepend(s, t), Topic, topic) == Prepend(s, Merge(t, Topic, topic))
  {
    if t.Cons? && t.hole.Topic? {
      assert (s + t.text) + topic == s + (t.text + topic);
      match Merge(t.rest, Topic, topic)
      case Tail(text) => assert s + ((t.text + topic) + text) == (s + (t.text + topic)) + text;
      case Cons(text, _, _) => assert s + ((t.text + topic) + text) == (s + (t.text + topic)) + text;
    }
  }

  /** The two replacements one after the other, as the bean modifiers for a client and a topic do them. */
  function TwoPasses(s: string, w: Words, client: string, topic: string): string {
    Replace(Replace(s, Holder(w.client), client), Holder(w.topic), topic)
  }

  lemma SequentialIsSimultaneous(t: Template, w: Words, client: string, topic: string)
    requires w.Proper() && Plain(t) && NoPercent(client) && CleanFor(t, w, Client)
    ensures TwoPasses(Text(t, w), w, client, topic) == Fill(t, client, topic)
  {
    ReplaceIsMerge(t, w, Client, client);
    var half := Merge(t, Client, client);
    MergedClient(t, client);
    OnlyTopicsClean(half, w);
    ReplaceIsMerge(half, w, Topic, topic);
    MergesFill(t, client, topic);
  }

  lemma {:induction false} FillPlain(t: Template, client: string, topic: string)
    requires Plain(t) && NoPercent(client) && NoPercent(topic)
    ensures NoPercent(Fill(t, client, topic))
  {
    if t.Cons? {
      FillPlain(t.rest, client, topic);
    }
  }

  /** Where the template is not clean, a percent sign survives both passes. */
  lemma {:induction false} UncleanLeavesPercent(t: Template, w: Words, client: string, topic: string)
    requires w.Proper() && Plain(t) && NoPercent(client) && !CleanFor(t, w, Client)
    ensures '%' in TwoPasses(Text(t, w), w, client, topic)
  {
    var rest := Text(t.rest, w);
    var after := Holder(w.Of(t.hole)) + rest;
    assert Text(t, w) == t.text + after;
    SkipLiteral(t.text, after, w.client, client);
    if t.hole.Client? {
      ReplaceHolder(w.client, rest, client);
      var half := Replace(rest, Holder(w.client), client);
      assert t.text + (client + half) == (t.text + client) + half;
      SkipLiteral(t.text + client, half, w.topic, topic);
      UncleanLeavesPercent(t.rest, w, client, topic);
    } else if t.rest.Cons? && t.rest.text == w.client {
      UncleanHere(t, w, client, topic);
    } else {
      ClosingPercent(t.rest, w, w.client);
      SkipOtherHolder(w.topic, w.client, rest, client);
      var half := Replace(rest, Holder(w.client), client);
      SkipLiteral(t.text, Holder(w.topic) + half, w.topic, topic);
      ReplaceHolder(w.topic, half, topic);
      UncleanLeavesPercent(t.rest, w, client, topic);
    }
  }

  lemma UncleanHere(t: Template, w: Words, client: string, topic: string)
    requires w.Proper() && Plain(t) && NoPercent(client)
    requires t.Cons? && t.hole.Topic? && t.rest.Cons? && t.rest.text == w.client
    ensures '%' in TwoPasses(Text(t, w), w, client, topic)
  {
    // text % TOPIC | % CLIENT % | word % ...: the middle part is taken for a placeholder.
    var word := w.Of(t.rest.hole);
    var s := "%" + Text(t.rest.rest, w);
    TextHere(t, w, word, s);
    FirstPassAfterText(t.text, w, client, word, s);
    SecondPassHere(t.text, w, client + word, Replace(s, Holder(w.client), client), topic);
  }

  lemma TextHere(t: Template, w: Words, word: string, s: string)
    requires t.Cons? && t.hole.Topic? && t.rest.Cons? && t.rest.text == w.client
    requires word == w.Of(t.rest.hole) && s == "%" + Text(t.rest.rest, w)
    ensures Text(t, w) == t.text + ("%" + (w.topic + (Holder(w.client) + (word + s))))
  {
    var after := Text(t.rest.rest, w);
    assert Text(t, w) == t.text + Holder(w.topic) + (w.client + Holder(word) + after);
    hide Text;
    HoldersTogether(w.topic, w.client, word, after);
    assert t.text + Holder(w.topic) + (w.client + Holder(word) + after)
        == t.text + (Holder(w.topic) + (w.client + Holder(word) + after));
  }

  /** The percent signs of two placeholders around a word make a placeholder of it. */
  lemma HoldersTogether(topic: string, client: string, word: string, after: string)
    ensures Holder(topic) + (client + Holder(word) + after)
         == "%" + (topic + (Holder(client) + (word + ("%" + after))))
  {
    Regroup("%", topic, "%", client + Holder(word) + after);
    Regroup("%", client, "%", word + ("%" + after));
    Regroup("%", word, "%", after);
    assert client + Holder(word) + after == client + (Holder(word) + after);
  }

  lemma FirstPassAfterText(text: string, w: Words, client: string, word: string, s: string)
    requires w.Proper() && NoPercent(text) && NoPercent(word)
    ensures Replace(text + ("%" + (w.topic + (Holder(w.client) + (word + s)))), Holder(w.client), client)
         == text + ("%" + (w.topic + ((client + word) + Replace(s, Holder(w.client), client))))
  {
    hide Replace, HasPrefix, Holder;
    FirstPassHere(w, client, word, s);
    SkipLiteral(text, "%" + (w.topic + (Holder(w.client) + (word + s))), w.client, client);
  }

  lemma SecondPassHere(text: string, w: Words, next: string, s: string, topic: string)
    requires w.Proper() && NoPercent(text) && next != "" && NoPercent(next)
    ensures '%' in Replace(text + ("%" + (w.topic + (next + s))), Holder(w.topic), topic)
  {
    hide Replace, HasPrefix, Holder;
    SkipLiteral(text, "%" + (w.topic + (next + s)), w.topic, topic);
    OpenHolder(w.topic, next, s);
    SkipPercent(w.topic + (next + s), w.topic, topic);
  }

  lemma FirstPassHere(w: Words, client: string, word: string, s: string)
    requires w.Proper() && NoPercent(word)
    ensures Replace("%" + (w.topic + (Holder(w.client) + (word + s))), Holder(w.client), client)
         == "%" + (w.topic + ((client + word) + Replace(s, Holder(w.client), client)))
  {
    var after := word + s;
    hide Replace, HasPrefix;
    RunsMatch(w.topic, w.client, w.client + "%" + after);
    assert w.topic + "%" + (w.client + "%" + after) == w.topic + (Holder(w.client) + after);
    SkipPercent(w.topic + (Holder(w.client) + after), w.client, client);
    SkipLiteral(w.topic, Holder(w.client) + after, w.client, client);
    ReplaceHolder(w.client, after, client);
    SkipLiteral(word, s, w.client, client);
    assert (client + word) + Replace(s, Holder(w.client), client)
        == client + (word + Replace(s, Holder(w.client), client));
  }

  /** "%word" followed by something that does not start with a percent sign is no placeholder. */
  lemma OpenHolder(word: string, next: string, s: string)
    requires next != "" && NoPercent(next) && NoPercent(word)
    ensures !HasPrefix("%" + (word + (next + s)), Holder(word))
  {
    var x := word + (next + s);
    assert x[|word|] == next[0] && next[0] in next;
    if HasPrefix("%" + x, Holder(word)) {
      MatchShape(x, word);
    }
  }

  /** For percent-free names, the two passes are the simultaneous substitution if and only if the template is clean. */
  lemma SequentialIsSimultaneousIff(t: Template, w: Words, client: string, topic: string)
    requires w.Proper() && Plain(t) && NoPercent(client) && NoPercent(topic)
    ensures TwoPasses(Text(t, w), w, client, topic) == Fill(t, client, topic) <==> CleanFor(t, w, Client)
  {
    if CleanFor(t, w, Client) {
      SequentialIsSimultaneous(t, w, client, topic);
    } else {
      UncleanLeavesPercent(t, w, client, topic);
      FillPlain(t, client, topic);
    }
  }

  /** A template for which the two passes go wrong: %TOPIC%CONSUMER%TOPIC%. */
  const UNCLEAN := Cons("", Topic, Cons("CONSUMER", Topic, Tail("")))

  lemma UncleanText()
    ensures Text(UNCLEAN, CONSUMER_WORDS) == "%TOPIC%CONSUMER%TOPIC%"
  {
    assert Text(Cons("CONSUMER", Topic, Tail("")), CONSUMER_WORDS) == "CONSUMER%TOPIC%";
  }

  lemma UncleanExample()
    ensures Plain(UNCLEAN) && ApplyConsumerTopicName("c", "t", "%TOPIC%CONSUMER%TOPIC%") != Fill(UNCLEAN, "c", "t")
  {
    WordsProper();
    UncleanText();
    assert !CleanFor(UNCLEAN, CONSUMER_WORDS, Client);
    assert NoPercent("c") && NoPercent("t") && NoPercent("CONSUMER");
    hide Text, Fill, Replace, CleanFor, Holder;
    SequentialIsSimultaneousIff(UNCLEAN, CONSUMER_WORDS, "c", "t");
  }

  lemma WordsProper()
    ensures CONSUMER_WORDS.Proper() && PRODUCER_WORDS.Proper()
    ensures Holder(CONSUMER_WORDS.client) == CONSUMER_HOLDER && Holder(PRODUCER_WORDS.client) == PRODUCER_HOLDER
    ensures Holder(CONSUMER_WORDS.topic) == TOPIC_HOLDER && Holder(PRODUCER_WORDS.topic) == TOPIC_HOLDER
  {
    assert |CONSUMER_WORDS.client| == 8 && |PRODUCER_WORDS.client| == 8 && |CONSUMER_WORDS.topic| == 5;
  }

  // ---------------------------------------------------------------- metric keys: prefix followed by attribute

  function Join(a: Template, b: Template): Template {
    match a
    case Tail(text) => Prepend(text, b)
    case Cons(text, hole, rest) => Cons(text, hole, Join(rest, b))
  }

  lemma {:induction false} JoinText(a: Template, b: Template, w: Words)
    ensures Text(Join(a, b), w) == Text(a, w) + Text(b, w)
  {
    match a
    case Tail(text) => PrependText(text, b, w);
    case Cons(text, hole, rest) =>
      JoinText(rest, b, w);
      assert text + Holder(w.Of(hole)) + (Text(rest, w) + Text(b, w))
          == (text + Holder(w.Of(hole)) + Text(rest, w)) + Text(b, w);
  }

  lemma {:induction false} JoinFill(a: Template, b: Template, client: string, topic: string)
    ensures Fill(Join(a, b), client, topic) == Fill(a, client, topic) + Fill(b, client, topic)
  {
    match a
    case Tail(text) =>
      if b.Cons? {
        var name := if b.hole.Client? then client else topic;
        assert (text + b.text) + name + Fill(b.rest, client, topic)
            == text + (b.text + name + Fill(b.rest, client, topic));
      }
    case Cons(text, hole, rest) =>
      JoinFill(rest, b, client, topic);
      var name := if hole.Client? then client else topic;
      assert text + name + (Fill(rest, client, topic) + Fill(b, client, topic))
          == (text + name + Fill(rest, client, topic)) + Fill(b, client, topic);
  }

  lemma {:induction false} JoinPlain(a: Template, b: Template)
    requires Plain(a) && Plain(b)
    ensures Plain(Join(a, b))
  {
    if a.Cons? {
      JoinPlain(a.rest, b);
    }
  }

  lemma JoinedTexts(prefix: Template, attribute: Template, w: Words, client: string, topic: string)
    requires Plain(prefix) && Plain(attribute)
    ensures Plain(Join(prefix, attribute))
    ensures Text(Join(prefix, attribute), w) == Text(prefix, w) + Text(attribute, w)
    ensures Fill(Join(prefix, attribute), client, topic) == Fill(prefix, client, topic) + Fill(attribute, client, topic)
  {
    JoinText(prefix, attribute, w);
    JoinFill(prefix, attribute, client, topic);
    JoinPlain(prefix, attribute);
  }

  /**
   * The key looked up for a metric is the filled-in prefix followed by the filled-in attribute, if both together are
   * clean.
   */
  lemma KeyIsPrefixPlusAttribute(prefix: Template, attribute: Template, w: Words, client: string, topic: string)
    requires w.Proper() && Plain(prefix) && Plain(attribute) && NoPercent(client)
    requires CleanFor(Join(prefix, attribute), w, Client)
    ensures TwoPasses(Text(prefix, w) + Text(attribute, w), w, client, topic)
         == Fill(prefix, client, topic) + Fill(attribute, client, topic)
  {
    JoinedTexts(prefix, attribute, w, client, topic);
    SequentialIsSimultaneous(Join(prefix, attribute), w, client, topic);
  }

  /** For percent-free names, whatever the two templates, it is so if and only if both together are clean. */
  lemma KeyIsPrefixPlusAttributeIff(prefix: Template, attribute: Template, w: Words, client: string, topic: string)
    requires w.Proper() && Plain(prefix) && Plain(attribute) && NoPercent(client) && NoPercent(topic)
    ensures TwoPasses(Text(prefix, w) + Text(attribute, w), w, client, topic)
            == Fill(prefix, client, topic) + Fill(attribute, client, topic)
       <==> CleanFor(Join(prefix, attribute), w, Client)
  {
    JoinedTexts(prefix, attribute, w, client, topic);
    SequentialIsSimultaneousIff(Join(prefix, attribute), w, client, topic);
  }

  /** The same for prefixes and attributes that only name the client, as in the plain consumer and producer tables. */
  lemma ClientKeyIsPrefixPlusAttribute(prefix: Template, attribute: Template, w: Words, client: string)
    requires w.Proper() && Plain(prefix) && Plain(attribute) && OnlyClients(prefix) && OnlyClients(attribute)
    ensures Replace(Text(prefix, w) + Text(attribute, w), Holder(w.client), client)
         == Fill(prefix, client, "") + Fill(attribute, client, "")
  {
    var key := Join(prefix, attribute);
    JoinedTexts(prefix, attribute, w, client, "");
    JoinOnlyClients(prefix, attribute);
    OnlyClientsMerge(key, w, client);
    ReplaceIsMerge(key, w, Client, client);
  }

  /** What the consumer and producer modifiers make of such a prefix and attribute. */
  lemma ClientKeys(prefix: Template, attribute: Template, client: string)
    requires Plain(prefix) && Plain(attribute) && OnlyClients(prefix) && OnlyClients(attribute)
    ensures ApplyConsumerName(client, Text(prefix, CONSUMER_WORDS) + Text(attribute, CONSUMER_WORDS))
         == Fill(prefix, client, "") + Fill(attribute, client, "")
    ensures ApplyProducerName(client, Text(prefix, PRODUCER_WORDS) + Text(attribute, PRODUCER_WORDS))
         == Fill(prefix, client, "") + Fill(attribute, client, "")
  {
    WordsProper();
    hide Replace, Text, Fill, Holder;
    ClientKeyIsPrefixPlusAttribute(prefix, attribute, CONSUMER_WORDS, client);
    ClientKeyIsPrefixPlusAttribute(prefix, attribute, PRODUCER_WORDS, client);
  }

  predicate OnlyClients(t: Template) {
    t.Cons? ==> t.hole.Client? && OnlyClients(t.rest)
  }

  lemma {:induction false} JoinOnlyClients(a: Template, b: Template)
    requires OnlyClients(a) && OnlyClients(b)
    ensures OnlyClients(Join(a, b))
  {
    if a.Cons? {
      JoinOnlyClients(a.rest, b);
    }
  }

  lemma {:induction false} OnlyClientsMerge(t: Template, w: Words, client: string)
    requires OnlyClients(t)
    ensures CleanFor(t, w, Client) && Merge(t, Client, client) == Tail(Fill(t, client, ""))
  {
    if t.Cons? {
      OnlyClientsMerge(t.rest, w, client);
    }
  }

  // ---------------------------------------------------------------- the shipped topic templates

  const CLIENT_FIELD := ",client-id="
  const CONSUMER_LEAD := "kafka.consumer:type=" + "consumer-fetch-manager-metrics" + CLIENT_FIELD
  const PRODUCER_LEAD := "kafka.producer:type=" + "producer-topic-metrics" + CLIENT_FIELD

  const CONSUMER_TOPIC_PREFIX := CONSUMER_LEAD + CONSUMER_HOLDER + ",topic=" + TOPIC_HOLDER + ","
  const PRODUCER_TOPIC_PREFIX := PRODUCER_LEAD + PRODUCER_HOLDER + ",topic=" + TOPIC_HOLDER + ","

  lemma LeadsPlain()
    ensures NoPercent(CONSUMER_LEAD) && NoPercent(PRODUCER_LEAD)
  {
    assert NoPercent("kafka.consumer:type=") && NoPercent("consumer-fetch-manager-metrics");
    assert NoPercent("kafka.producer:type=") && NoPercent("producer-topic-metrics") && NoPercent(CLIENT_FIELD);
  }

  function TopicTemplate(lead: string): Template {
    Cons(lead, Client, Cons(",topic=", Topic, Tail(",")))
  }

  lemma TopicPrefixes()
    ensures Text(TopicTemplate(CONSUMER_LEAD), CONSUMER_WORDS) == CONSUMER_TOPIC_PREFIX
    ensures Text(TopicTemplate(PRODUCER_LEAD), PRODUCER_WORDS) == PRODUCER_TOPIC_PREFIX
  {
    WordsProper();
    TopicTemplateText(CONSUMER_LEAD, CONSUMER_WORDS);
    TopicTemplateText(PRODUCER_LEAD, PRODUCER_WORDS);
    hide Holder, Text;
    assert CONSUMER_TOPIC_PREFIX == CONSUMER_LEAD + CONSUMER_HOLDER + (",topic=" + TOPIC_HOLDER + ",");
    assert PRODUCER_TOPIC_PREFIX == PRODUCER_LEAD + PRODUCER_HOLDER + (",topic=" + TOPIC_HOLDER + ",");
  }

  lemma TopicTemplateText(lead: string, w: Words)
    ensures Text(TopicTemplate(lead), w) == lead + Holder(w.client) + (",topic=" + Holder(w.topic) + ",")
  {
    assert Text(Tail(","), w) == ",";
    assert Text(Cons(",topic=", Topic, Tail(",")), w) == ",topic=" + Holder(w.topic) + ",";
  }

  /** The template of a topic key, once the client is filled in. */
  function TopicRest(attribute: string): Template {
    Cons(",topic=", Topic, Tail("," + attribute))
  }

  lemma TopicRestIs(w: Words, attribute: string)
    requires NoPercent(attribute)
    ensures Plain(TopicRest(attribute)) && CleanFor(TopicRest(attribute), w, Client)
    ensures Text(TopicRest(attribute), w) == ",topic=" + Holder(w.topic) + ("," + attribute)
  {
    assert NoPercent(",topic=") && NoPercent("," + attribute);
    assert Text(Tail("," + attribute), w) == "," + attribute;
    assert CleanFor(Tail("," + attribute), w, Client);
  }

  lemma JoinedTopicTemplate(lead: string, w: Words, attribute: string)
    ensures Text(TopicTemplate(lead), w) + attribute == Text(Cons(lead, Client, TopicRest(attribute)), w)
  {
    JoinText(TopicTemplate(lead), Tail(attribute), w);
    assert Join(Cons(",topic=", Topic, Tail(",")), Tail(attribute)) == TopicRest(attribute);
    assert Text(Tail(attribute), w) == attribute;
    hide Text, Holder;
  }

  lemma ClientMerged(lead: string, client: string, attribute: string)
    ensures Merge(Cons(lead, Client, TopicRest(attribute)), Client, client)
         == Prepend(lead + client, TopicRest(attribute))
  {
    assert Merge(TopicRest(attribute), Client, client) == TopicRest(attribute);
  }

  lemma Respaced(lead: string, client: string, holder: string, tail: string)
    ensures (lead + client) + (",topic=" + holder + tail) == lead + (client + ("," + ("topic=" + (holder + tail))))
  {
    assert ",topic=" == "," + "topic=";
    assert ",topic=" + holder + tail == "," + ("topic=" + (holder + tail));
  }

  /**
   * What the first pass leaves of a topic prefix with an attribute: the client stands as it is, whatever it contains.
   */
  lemma FirstPassKey(lead: string, w: Words, client: string, attribute: string)
    requires w.Proper() && NoPercent(lead) && NoPercent(attribute)
    ensures Replace(Text(TopicTemplate(lead), w) + attribute, Holder(w.client), client)
         == lead + (client + ("," + ("topic=" + (Holder(w.topic) + ("," + attribute)))))
  {
    var rest := TopicRest(attribute);
    TopicRestIs(w, attribute);
    JoinedTopicTemplate(lead, w, attribute);
    ClientMerged(lead, client, attribute);
    hide Text, Replace, TopicRest, Holder, Prepend, Merge;
    ReplaceIsMerge(Cons(lead, Client, rest), w, Client, client);
    PrependText(lead + client, rest, w);
    Respaced(lead, client, Holder(w.topic), "," + attribute);
  }

  lemma PrefixBefore(c: string, d: char, s: string, old': string)
    requires d !in old'
    ensures HasPrefix(c + ([d] + s), old') <==> HasPrefix(c, old')
  {
    var x := c + ([d] + s);
    if |old'| <= |c| {
      assert x[..|old'|] == c[..|old'|];
    } else if |old'| <= |x| {
      assert x[..|old'|][|c|] == d;
      assert x[..|old'|] == old' ==> d in old';
    }
  }

  /** No match reaches across a character that the replaced text does not contain. */
  lemma {:induction false} PassesSeparator(c: string, d: char, s: string, old': string, new': string)
    requires old' != "" && d !in old'
    ensures Replace(c + ([d] + s), old', new') == Replace(c, old', new') + ([d] + Replace(s, old', new'))
    decreases |c|
  {
    var x := c + ([d] + s);
    PrefixBefore(c, d, s, old');
    if c == "" {
      assert x == [d] + s && !HasPrefix("", old');
      assert x[1..] == s;
    } else if HasPrefix(c, old') {
      assert x[|old'|..] == c[|old'|..] + ([d] + s);
      PassesSeparator(c[|old'|..], d, s, old', new');
    } else {
      assert x[1..] == c[1..] + ([d] + s);
      PassesSeparator(c[1..], d, s, old', new');
    }
  }

  /** What the second pass makes of it: it fills in the topic, and also rewrites the client. */
  lemma SecondPassKey(lead: string, word: string, client: string, topic: string, attribute: string)
    requires NoPercent(lead) && NoPercent(attribute) && ',' !in Holder(word)
    ensures Replace(lead + (client + ("," + ("topic=" + (Holder(word) + ("," + attribute))))), Holder(word), topic)
         == TopicKeyOf(lead, Replace(client, Holder(word), topic), topic, attribute)
  {
    hide Replace, Holder;
    var tail := "," + attribute;
    var rest := "topic=" + (Holder(word) + tail);
    SkipLiteral(lead, client + ("," + rest), word, topic);
    assert Holder(word) != "" by {
      HolderStarts(word);
    }
    PassesSeparator(client, ',', rest, Holder(word), topic);
    SkipLiteral("topic=", Holder(word) + tail, word, topic);
    ReplaceHolder(word, tail, topic);
    SkipLiteral(tail, "", word, topic);
    EmptyReplace(word, topic);
    assert tail + "" == tail;
    KeyParts(lead, Replace(client, Holder(word), topic), topic, attribute);
  }

  lemma HolderStarts(word: string)
    ensures Holder(word) != ""
  {
  }

  /** What the consumer and producer topic modifiers make of prefix + attribute, for every client and topic. */
  lemma TopicKey(lead: string, w: Words, client: string, topic: string, attribute: string)
    requires w.Proper() && NoPercent(lead) && NoPercent(attribute) && ',' !in Holder(w.topic)
    ensures TwoPasses(Text(TopicTemplate(lead), w) + attribute, w, client, topic)
         == TopicKeyOf(lead, Replace(client, Holder(w.topic), topic), topic, attribute)
  {
    hide Text, Replace, Holder;
    FirstPassKey(lead, w, client, attribute);
    SecondPassKey(lead, w.topic, client, topic, attribute);
  }

  lemma ShippedKeys(client: string, topic: string, attribute: string)
    requires NoPercent(attribute)
    ensures ApplyConsumerTopicName(client, topic, CONSUMER_TOPIC_PREFIX + attribute)
         == TopicKeyOf(CONSUMER_LEAD, Replace(client, TOPIC_HOLDER, topic), topic, attribute)
    ensures ApplyProducerTopicName(client, topic, PRODUCER_TOPIC_PREFIX + attribute)
         == TopicKeyOf(PRODUCER_LEAD, Replace(client, TOPIC_HOLDER, topic), topic, attribute)
  {
    TopicPrefixes();
    WordsProper();
    LeadsPlain();
    assert ',' !in TOPIC_HOLDER;
    hide Replace, Text, Holder, TopicKeyOf;
    TopicKey(CONSUMER_LEAD, CONSUMER_WORDS, client, topic, attribute);
    TopicKey(PRODUCER_LEAD, PRODUCER_WORDS, client, topic, attribute);
  }

  /** The same with the texts of the templates and of the keys written out. */
  lemma ShippedTexts(client: string, topic: string, attribute: string)
    requires NoPercent(attribute)
    ensures ApplyConsumerTopicName(
              client, topic,
              "kafka.consumer:type=" + "consumer-fetch-manager-metrics" + ",client-id=" + "%CONSUMER%"
              + ",topic=" + "%TOPIC%" + "," + attribute)
         == "kafka.consumer:type=" + "consumer-fetch-manager-metrics" + ",client-id="
            + Replace(client, "%TOPIC%", topic) + ",topic=" + topic + "," + attribute
    ensures ApplyProducerTopicName(
              client, topic,
              "kafka.producer:type=" + "producer-topic-metrics" + ",client-id=" + "%PRODUCER%"
              + ",topic=" + "%TOPIC%" + "," + attribute)
         == "kafka.producer:type=" + "producer-topic-metrics" + ",client-id="
            + Replace(client, "%TOPIC%", topic) + ",topic=" + topic + "," + attribute
  {
    hide Replace, ApplyConsumerTopicName, ApplyProducerTopicName;
    ShippedKeys(client, topic, attribute);
  }

  // ---------------------------------------------------------------- injectivity

  ghost predicate Contains(s: string, part: string) {
    exists i :: 0 <= i <= |s| && HasPrefix(s[i..], part)
  }

  lemma ContainsLater(s: string, part: string)
    requires Contains(s, part) && !HasPrefix(s, part) && part != ""
    ensures s != "" && Contains(s[1..], part)
  {
    var i :| 0 <= i <= |s| && HasPrefix(s[i..], part);
    assert s[0..] == s;
    assert s[i..] == s[1..][i - 1..];
  }

  lemma {:induction false} ReplaceGrows(s: string, old': string, a: string, b: string)
    requires old' != "" && |a| < |b|
    ensures |Replace(s, old', a)| <= |Replace(s, old', b)|
    ensures Contains(s, old') ==> |Replace(s, old', a)| < |Replace(s, old', b)|
    decreases |s|
  {
    if Contains(s, old') && !HasPrefix(s, old') {
      ContainsLater(s, old');
    }
    if s != "" {
      ReplaceGrows(if HasPrefix(s, old') then s[|old'|..] else s[1..], old', a, b);
    }
  }

  lemma {:induction false} SameLengthNames(s: string, old': string, a: string, b: string)
    requires old' != "" && Contains(s, old') && |a| == |b| && Replace(s, old', a) == Replace(s, old', b)
    ensures a == b
    decreases |s|
  {
    if HasPrefix(s, old') {
      SplitAt(a, Replace(s[|old'|..], old', a), b, Replace(s[|old'|..], old', b));
    } else {
      ContainsLater(s, old');
      SplitAt([s[0]], Replace(s[1..], old', a), [s[0]], Replace(s[1..], old', b));
      SameLengthNames(s[1..], old', a, b);
    }
  }

  /** Distinct names give distinct results for every string that contains the placeholder. */
  lemma ReplaceInjective(s: string, old': string, a: string, b: string)
    requires old' != "" && Contains(s, old') && Replace(s, old', a) == Replace(s, old', b)
    ensures a == b
  {
    if |a| < |b| {
      ReplaceGrows(s, old', a, b);
    } else if |b| < |a| {
      ReplaceGrows(s, old', b, a);
    } else {
      SameLengthNames(s, old', a, b);
    }
  }

  /**
   * Two topics share a bean name or key if and only if the template does not mention the topic, or they are the same.
   */
  lemma TopicKeysInjectiveIff(template: string, a: string, b: string)
    ensures ApplyTopicName(a, template) == ApplyTopicName(b, template) <==> a == b || !Contains(template, TOPIC_HOLDER)
  {
    if Contains(template, TOPIC_HOLDER) {
      if ApplyTopicName(a, template) == ApplyTopicName(b, template) {
        ReplaceInjective(template, TOPIC_HOLDER, a, b);
      }
    } else {
      NothingReplaced(template, TOPIC_HOLDER, a);
      NothingReplaced(template, TOPIC_HOLDER, b);
    }
  }

  lemma {:induction false} NothingReplaced(s: string, old': string, name: string)
    requires old' != "" && !Contains(s, old')
    ensures Replace(s, old', name) == s
    decreases |s|
  {
    assert s[0..] == s;
    if s != "" {
      forall i | 0 <= i <= |s[1..]| ensures !HasPrefix(s[1..][i..], old') {
        assert s[1..][i..] == s[i + 1..];
      }
      NothingReplaced(s[1..], old', name);
    }
  }

  lemma {:induction false} ReplaceBySelf(s: string, old': string)
    requires old' != ""
    ensures Replace(s, old', old') == s
    decreases |s|
  {
    if HasPrefix(s, old') && s != "" {
      ReplaceBySelf(s[|old'|..], old');
      assert s == s[..|old'|] + s[|old'|..];
    } else if s != "" {
      ReplaceBySelf(s[1..], old');
    }
  }

  /** A pass changes nothing if and only if there is nothing to replace or it is replaced by itself. */
  lemma ReplaceKeepsIff(s: string, old': string, name: string)
    requires old' != ""
    ensures Replace(s, old', name) == s <==> !Contains(s, old') || name == old'
  {
    ReplaceBySelf(s, old');
    if !Contains(s, old') {
      NothingReplaced(s, old', name);
    } else if Replace(s, old', name) == s {
      ReplaceInjective(s, old', name, old');
    }
  }

  lemma SlicePrefix(s: string, i: nat, m: nat)
    requires i + m <= |s|
    ensures s[i..][..m] == s[i..i + m]
  {
  }

  lemma SliceOfSlice(s: string, i: nat, j: nat, k: nat, m: nat)
    requires i <= j <= |s| && k + m <= j - i
    ensures s[i..j][k..k + m] == s[i + k..i + k + m]
  {
    var a, b := s[i..j][k..k + m], s[i + k..i + k + m];
    forall n | 0 <= n < m ensures a[n] == b[n] {
      assert a[n] == s[i..j][k + n] == s[i + k + n];
    }
  }

  lemma PartContains(s: string, i: nat, j: nat, part: string)
    requires i <= j <= |s| && Contains(s[i..j], part)
    ensures Contains(s, part)
  {
    var x, m := s[i..j], |part|;
    var k :| 0 <= k <= |x| && HasPrefix(x[k..], part);
    SlicePrefix(x, k, m);
    SlicePrefix(s, i + k, m);
    SliceOfSlice(s, i, j, k, m);
    assert HasPrefix(s[i + k..], part);
  }

  predicate NoComma(s: string) {
    ',' !in s
  }

  /** What stands between the client and the topic in a topic key. */
  const TOPIC_FIELD := ",topic="

  /** A name that brings a topic field of its own. */
  ghost predicate HasField(name: string) {
    Contains(name, TOPIC_FIELD)
  }

  lemma FieldAt(s: string, i: nat)
    requires i <= |s| && HasPrefix(s[i..], TOPIC_FIELD)
    ensures i + 7 <= |s| && s[i] == ',' && forall j :: i < j < i + 7 ==> s[j] != ','
  {
    var field := s[i..][..7];
    assert field == TOPIC_FIELD;
    forall j | i < j < i + 7 ensures s[j] != ',' {
      assert s[j] == field[j - i];
    }
    assert s[i] == field[0];
  }

  /** The topic field cannot overlap with itself: only its first character is a comma. */
  lemma FieldsApart(s: string, i: nat, j: nat)
    requires i < j <= |s| && HasPrefix(s[i..], TOPIC_FIELD) && HasPrefix(s[j..], TOPIC_FIELD)
    ensures i + 7 <= j
  {
    FieldAt(s, i);
    FieldAt(s, j);
  }

  /**
   * Two readings of one string as client, topic field and topic: the shorter client leaves a field in its topic, and
   * what stands before that field is the end of the longer client.
   */
  lemma TwoReadings(c1: string, t1: string, c2: string, t2: string)
    requires c1 + (TOPIC_FIELD + t1) == c2 + (TOPIC_FIELD + t2) && |c1| < |c2|
    ensures HasField(t1) && HasField(c2)
    ensures var i := |c2| - |c1| - 7; 0 <= i <= |t1| && HasPrefix(t1[i..], TOPIC_FIELD) && t1[..i] == c2[|c1| + 7..]
  {
    var s := c1 + (TOPIC_FIELD + t1);
    FieldAfter(c1, t1);
    FieldAfter(c2, t2);
    FieldsApart(s, |c1|, |c2|);
    var i := |c2| - |c1| - 7;
    assert t1[i..] == s[|c2|..];
    assert HasPrefix(t1[i..], TOPIC_FIELD);
    assert t1[..i] == s[|c1| + 7..|c2|];
    assert c2[|c1|..] == s[|c1|..|c2|];
    assert c2[|c1|..][..7] == s[|c1|..][..7] == TOPIC_FIELD;
  }

  lemma FieldAfter(c: string, t: string)
    ensures HasPrefix((c + (TOPIC_FIELD + t))[|c|..], TOPIC_FIELD)
  {
    assert (c + (TOPIC_FIELD + t))[|c|..] == TOPIC_FIELD + t;
    StartsWith(TOPIC_FIELD, t);
  }

  lemma LaterComma(x1: string, a1: string, x2: string, a2: string)
    requires x1 + ("," + a1) == x2 + ("," + a2) && |x1| < |x2|
    ensures ',' in a1
  {
    var s := x1 + ("," + a1);
    assert s[|x2|] == ',' && s[|x1| + 1..] == a1;
    assert a1[|x2| - |x1| - 1] == s[|x2|];
  }

  /** A comma-free attribute is what follows the last comma. */
  lemma LastComma(x1: string, a1: string, x2: string, a2: string)
    requires NoComma(a1) && NoComma(a2) && x1 + ("," + a1) == x2 + ("," + a2)
    ensures x1 == x2 && a1 == a2
  {
    if |x1| < |x2| {
      LaterComma(x1, a1, x2, a2);
    } else if |x2| < |x1| {
      LaterComma(x2, a2, x1, a1);
    } else {
      SplitAt(x1, "," + a1, x2, "," + a2);
      SplitAt(",", a1, ",", a2);
    }
  }

  function TopicKeyOf(lead: string, client: string, topic: string, attribute: string): string {
    lead + client + TOPIC_FIELD + topic + "," + attribute
  }

  /** The same attribute, or two attributes without a comma, as all the shipped ones are. */
  predicate Comparable(a1: string, a2: string) {
    a1 == a2 || (NoComma(a1) && NoComma(a2))
  }

  /** Equal keys: equal attributes, and two readings of the same names. */
  lemma EqualKeys(lead: string, c1: string, t1: string, a1: string, c2: string, t2: string, a2: string)
    requires Comparable(a1, a2)
    requires TopicKeyOf(lead, c1, t1, a1) == TopicKeyOf(lead, c2, t2, a2)
    ensures c1 + (TOPIC_FIELD + t1) == c2 + (TOPIC_FIELD + t2) && a1 == a2
  {
    var x1, x2 := c1 + (TOPIC_FIELD + t1), c2 + (TOPIC_FIELD + t2);
    KeyParts(lead, c1, t1, a1);
    KeyParts(lead, c2, t2, a2);
    SplitAt(lead, x1 + ("," + a1), lead, x2 + ("," + a2));
    if a1 == a2 {
      SplitAt(x1, "," + a1, x2, "," + a2);
    } else {
      LastComma(x1, a1, x2, a2);
    }
  }

  lemma SameReading(c1: string, t1: string, c2: string, t2: string)
    requires c1 + (TOPIC_FIELD + t1) == c2 + (TOPIC_FIELD + t2) && |c1| == |c2|
    ensures c1 == c2 && t1 == t2
  {
    SplitAt(c1, TOPIC_FIELD + t1, c2, TOPIC_FIELD + t2);
    SplitAt(TOPIC_FIELD, t1, TOPIC_FIELD, t2);
  }

  /** A key whose names have no topic field of their own determines client, topic and attribute. */
  lemma TopicKeysDetermine(lead: string, c1: string, t1: string, a1: string, c2: string, t2: string, a2: string)
    requires !HasField(c1) && !HasField(t1) && Comparable(a1, a2)
    requires TopicKeyOf(lead, c1, t1, a1) == TopicKeyOf(lead, c2, t2, a2)
    ensures c1 == c2 && t1 == t2 && a1 == a2
  {
    hide HasField, TopicKeyOf;
    EqualKeys(lead, c1, t1, a1, c2, t2, a2);
    if |c1| < |c2| {
      TwoReadings(c1, t1, c2, t2);
    } else if |c2| < |c1| {
      TwoReadings(c2, t2, c1, t1);
    } else {
      SameReading(c1, t1, c2, t2);
    }
  }

  lemma KeyParts(lead: string, c: string, t: string, a: string)
    ensures TopicKeyOf(lead, c, t, a) == lead + (c + (TOPIC_FIELD + t) + ("," + a))
  {
  }

  lemma SameNamesSameKeys(lead: string, c1: string, t1: string, c2: string, t2: string, a: string)
    requires c1 + (TOPIC_FIELD + t1) == c2 + (TOPIC_FIELD + t2)
    ensures TopicKeyOf(lead, c1, t1, a) == TopicKeyOf(lead, c2, t2, a)
  {
    KeyParts(lead, c1, t1, a);
    KeyParts(lead, c2, t2, a);
  }

  // ---------------------------------------------------------------- the shipped topic keys

  /** The keys that a modifier makes of a shipped topic prefix and an attribute. */
  function ShippedKey(producer: bool, client: string, topic: string, attribute: string): string {
    if producer then ApplyProducerTopicName(client, topic, PRODUCER_TOPIC_PREFIX + attribute)
    else ApplyConsumerTopicName(client, topic, CONSUMER_TOPIC_PREFIX + attribute)
  }

  function Lead(producer: bool): string {
    if producer then PRODUCER_LEAD else CONSUMER_LEAD
  }

  /** The key names the client as the second pass leaves it. */
  function Rewritten(client: string, topic: string): string {
    Replace(client, TOPIC_HOLDER, topic)
  }

  lemma ShippedKeyIs(producer: bool, client: string, topic: string, attribute: string)
    requires NoPercent(attribute)
    ensures ShippedKey(producer, client, topic, attribute)
         == TopicKeyOf(Lead(producer), Rewritten(client, topic), topic, attribute)
  {
    hide Replace, TopicKeyOf;
    ShippedKeys(client, topic, attribute);
  }

  /**
   * The key is the one meant, with the client's own name in it, if and only if the client does not contain the topic
   * placeholder or the topic happens to be the placeholder.
   */
  lemma ShippedKeyNamesClientIff(producer: bool, client: string, topic: string, attribute: string)
    requires NoPercent(attribute)
    ensures ShippedKey(producer, client, topic, attribute) == TopicKeyOf(Lead(producer), client, topic, attribute)
       <==> !Contains(client, TOPIC_HOLDER) || topic == TOPIC_HOLDER
  {
    ShippedKeyIs(producer, client, topic, attribute);
    ReplaceKeepsIff(client, TOPIC_HOLDER, topic);
    hide ShippedKey, Replace, TopicKeyOf, Contains;
    var r := Rewritten(client, topic);
    if TopicKeyOf(Lead(producer), r, topic, attribute) == TopicKeyOf(Lead(producer), client, topic, attribute) {
      EqualKeys(Lead(producer), r, topic, attribute, client, topic, attribute);
      assert |r + (TOPIC_FIELD + topic)| == |client + (TOPIC_FIELD + topic)|;
      SameReading(r, topic, client, topic);
    }
  }

  /** A client shares its keys with the client it is rewritten to, if and only if that one is not rewritten again. */
  lemma RewrittenSharesIff(producer: bool, client: string, topic: string, attribute: string)
    requires NoPercent(attribute)
    ensures ShippedKey(producer, Rewritten(client, topic), topic, attribute)
            == ShippedKey(producer, client, topic, attribute)
       <==> !Contains(Rewritten(client, topic), TOPIC_HOLDER) || topic == TOPIC_HOLDER
  {
    hide ShippedKey, Rewritten, TopicKeyOf, Contains;
    ShippedKeyIs(producer, client, topic, attribute);
    ShippedKeyNamesClientIff(producer, Rewritten(client, topic), topic, attribute);
  }

  /** The client "%TOPIC%" and the client "t" share all their keys for the topic "t". */
  lemma PlaceholderCollision(producer: bool, attribute: string)
    requires NoPercent(attribute)
    ensures ShippedKey(producer, "%TOPIC%", "t", attribute) == ShippedKey(producer, "t", "t", attribute)
  {
    assert Rewritten("%TOPIC%", "t") == "t" by {
      assert "%TOPIC%"[7..] == "";
    }
    assert !Contains("t", TOPIC_HOLDER);
    hide ShippedKey, Rewritten, Contains;
    RewrittenSharesIff(producer, "%TOPIC%", "t", attribute);
  }

  // ---------------------------------------------------------------- which names share their keys

  /** A client without the topic placeholder, and an attribute that substitution leaves alone. */
  ghost predicate Plainly(client: string, attribute: string) {
    !Contains(client, TOPIC_HOLDER) && NoPercent(attribute)
  }

  ghost predicate SameKey(
    producer: bool, c1: string, t1: string, a1: string, c2: string, t2: string, a2: string)
  {
    && Comparable(a1, a2) && (c1, t1, a1) != (c2, t2, a2)
    && ShippedKey(producer, c1, t1, a1) == ShippedKey(producer, c2, t2, a2)
  }

  /** Another client without the placeholder, another topic or another attribute gives the same key. */
  ghost predicate SharesKey(producer: bool, client: string, topic: string, attribute: string) {
    exists c, t, a :: Plainly(c, a) && SameKey(producer, c, t, a, client, topic, attribute)
  }

  /** The topic brings a topic field of its own, with no placeholder before it. */
  ghost predicate SplitsTopic(topic: string) {
    exists i :: 0 <= i <= |topic| && HasPrefix(topic[i..], TOPIC_FIELD) && !Contains(topic[..i], TOPIC_HOLDER)
  }

  lemma AtField(s: string, i: nat)
    requires i <= |s| && HasPrefix(s[i..], TOPIC_FIELD)
    ensures i + 7 <= |s| && s == s[..i] + (TOPIC_FIELD + s[i + 7..])
  {
    assert s[i..] == s[i..][..7] + s[i + 7..];
    assert s == s[..i] + s[i..];
  }

  lemma MovedField(a: string, b: string, c: string)
    ensures (a + (TOPIC_FIELD + b)) + (TOPIC_FIELD + c) == a + (TOPIC_FIELD + (b + (TOPIC_FIELD + c)))
  {
    Regroup(a, TOPIC_FIELD, b, TOPIC_FIELD + c);
    assert a + (TOPIC_FIELD + b) == a + TOPIC_FIELD + b;
  }

  /** A reading with a shorter client: the field inside the client is taken for the one after it. */
  lemma ShorterClient(client: string, topic: string) returns (c: string, t: string)
    requires HasField(client)
    ensures c + (TOPIC_FIELD + t) == client + (TOPIC_FIELD + topic) && |c| < |client|
    ensures !Contains(client, TOPIC_HOLDER) ==> !Contains(c, TOPIC_HOLDER)
  {
    var i :| 0 <= i <= |client| && HasPrefix(client[i..], TOPIC_FIELD);
    AtField(client, i);
    hide Contains, HasPrefix;
    var rest := client[i + 7..];
    c, t := client[..i], rest + (TOPIC_FIELD + topic);
    MovedField(c, rest, topic);
    assert client[0..i] == c;
    if Contains(c, TOPIC_HOLDER) {
      PartContains(client, 0, i, TOPIC_HOLDER);
    }
  }

  /** A reading with a longer client: the field inside the topic is taken for the one before it. */
  lemma LongerClient(client: string, topic: string, i: nat) returns (c: string, t: string)
    requires i <= |topic| && HasPrefix(topic[i..], TOPIC_FIELD) && !Contains(topic[..i], TOPIC_HOLDER)
    requires !Contains(client, TOPIC_HOLDER)
    ensures c + (TOPIC_FIELD + t) == client + (TOPIC_FIELD + topic) && |c| > |client|
    ensures !Contains(c, TOPIC_HOLDER)
  {
    AtField(topic, i);
    hide *;
    var before, rest := topic[..i], topic[i + 7..];
    c, t := client + (TOPIC_FIELD + before), rest;
    MovedField(client, before, rest);
    NoHolderAcross(client, before);
  }

  lemma AcrossField(a: string, b: string)
    ensures Replace(a + (TOPIC_FIELD + b), TOPIC_HOLDER, "")
         == Replace(a, TOPIC_HOLDER, "") + (TOPIC_FIELD + Replace(b, TOPIC_HOLDER, ""))
  {
    var rest := "topic=" + b;
    assert TOPIC_FIELD + b == [','] + rest && ',' !in TOPIC_HOLDER;
    assert Holder("TOPIC") == TOPIC_HOLDER;
    hide Replace;
    PassesSeparator(a, ',', rest, TOPIC_HOLDER, "");
    SkipLiteral("topic=", b, "TOPIC", "");
    assert [','] + ("topic=" + Replace(b, TOPIC_HOLDER, "")) == TOPIC_FIELD + Replace(b, TOPIC_HOLDER, "");
  }

  /** The placeholder has no comma, so that it does not reach across a topic field. */
  lemma NoHolderAcross(a: string, b: string)
    requires !Contains(a, TOPIC_HOLDER) && !Contains(b, TOPIC_HOLDER)
    ensures !Contains(a + (TOPIC_FIELD + b), TOPIC_HOLDER)
  {
    hide Contains, Replace;
    ReplaceKeepsIff(a, TOPIC_HOLDER, "");
    ReplaceKeepsIff(b, TOPIC_HOLDER, "");
    ReplaceKeepsIff(a + (TOPIC_FIELD + b), TOPIC_HOLDER, "");
    AcrossField(a, b);
  }

  lemma OtherReadingShares(producer: bool, c: string, t: string, client: string, topic: string, attribute: string)
    requires Plainly(c, attribute) && Plainly(client, attribute)
    requires c + (TOPIC_FIELD + t) == client + (TOPIC_FIELD + topic) && |c| != |client|
    ensures SameKey(producer, c, t, attribute, client, topic, attribute)
  {
    ReplaceKeepsIff(c, TOPIC_HOLDER, t);
    ReplaceKeepsIff(client, TOPIC_HOLDER, topic);
    ShippedKeyIs(producer, c, t, attribute);
    ShippedKeyIs(producer, client, topic, attribute);
    hide ShippedKey, TopicKeyOf, Replace;
    SameNamesSameKeys(Lead(producer), c, t, client, topic, attribute);
  }

  /**
   * Among clients without the topic placeholder, and whatever the topics: a client and a topic share their keys with
   * others if and only if the client, or the part of the topic before its first placeholder, brings a topic field of
   * its own.
   */
  lemma SharesKeyIff(producer: bool, client: string, topic: string, attribute: string)
    requires Plainly(client, attribute)
    ensures SharesKey(producer, client, topic, attribute) <==> HasField(client) || SplitsTopic(topic)
  {
    hide SameKey, HasField;
    if HasField(client) {
      var c, t := ShorterClient(client, topic);
      OtherReadingShares(producer, c, t, client, topic, attribute);
    } else if SplitsTopic(topic) {
      var i :| 0 <= i <= |topic| && HasPrefix(topic[i..], TOPIC_FIELD) && !Contains(topic[..i], TOPIC_HOLDER);
      var c, t := LongerClient(client, topic, i);
      OtherReadingShares(producer, c, t, client, topic, attribute);
    }
    if c, t, a :| Plainly(c, a) && SameKey(producer, c, t, a, client, topic, attribute) {
      SharedReading(producer, c, t, a, client, topic, attribute);
    }
  }

  /** Clients without the placeholder that share a key are two readings of the same names. */
  lemma SameKeyReads(
    producer: bool, c: string, t: string, a: string, client: string, topic: string, attribute: string)
    requires Plainly(c, a) && Plainly(client, attribute) && SameKey(producer, c, t, a, client, topic, attribute)
    ensures c + (TOPIC_FIELD + t) == client + (TOPIC_FIELD + topic) && (c, t) != (client, topic)
  {
    ReplaceKeepsIff(c, TOPIC_HOLDER, t);
    ReplaceKeepsIff(client, TOPIC_HOLDER, topic);
    ShippedKeyIs(producer, c, t, a);
    ShippedKeyIs(producer, client, topic, attribute);
    hide ShippedKey, TopicKeyOf, Replace, Contains;
    EqualKeys(Lead(producer), c, t, a, client, topic, attribute);
  }

  lemma SharedReading(
    producer: bool, c: string, t: string, a: string, client: string, topic: string, attribute: string)
    requires Plainly(c, a) && Plainly(client, attribute) && SameKey(producer, c, t, a, client, topic, attribute)
    ensures HasField(client) || SplitsTopic(topic)
  {
    SameKeyReads(producer, c, t, a, client, topic, attribute);
    hide SameKey, HasField, Contains;
    if |client| < |c| {
      LongerReading(client, topic, c, t);
    } else if |c| < |client| {
      TwoReadings(c, t, client, topic);
    } else {
      SameReading(c, t, client, topic);
    }
  }

  lemma LongerReading(client: string, topic: string, c: string, t: string)
    requires c + (TOPIC_FIELD + t) == client + (TOPIC_FIELD + topic) && |client| < |c|
    requires !Contains(c, TOPIC_HOLDER)
    ensures SplitsTopic(topic)
  {
    TwoReadings(client, topic, c, t);
    var i := |c| - |client| - 7;
    assert c[|client| + 7..] == c[|client| + 7..|c|];
    hide HasField;
    if Contains(topic[..i], TOPIC_HOLDER) {
      PartContains(c, |client| + 7, |c|, TOPIC_HOLDER);
    }
  }

  /** Names without a comma share their keys with no other client without the topic placeholder. */
  lemma CommaFreeKeysUnique(producer: bool, client: string, topic: string, attribute: string)
    requires Plainly(client, attribute) && NoComma(client) && NoComma(topic)
    ensures !SharesKey(producer, client, topic, attribute)
  {
    hide SharesKey, Plainly;
    CommaFreeHasNoField(client);
    CommaFreeHasNoField(topic);
    SharesKeyIff(producer, client, topic, attribute);
  }

  lemma CommaFreeHasNoField(name: string)
    requires NoComma(name)
    ensures !HasField(name) && !SplitsTopic(name)
  {
    forall i | 0 <= i <= |name| ensures !HasPrefix(name[i..], TOPIC_FIELD) {
      if name[i..] != "" {
        assert name[i..][0] in name;
      }
    }
  }

  /** The client "a,topic=b" with topic "c" and the client "a" with topic "b,topic=c" share all their keys. */
  lemma CommaCollision(producer: bool, attribute: string)
    requires NoPercent(attribute)
    ensures ShippedKey(producer, "a,topic=b", "c", attribute) == ShippedKey(producer, "a", "b,topic=c", attribute)
  {
    PercentFreeIsPlain("a,topic=b");
    PercentFreeIsPlain("a");
    assert "a,topic=b" + (TOPIC_FIELD + "c") == "a" + (TOPIC_FIELD + "b,topic=c");
    hide ShippedKey, Contains;
    OtherReadingShares(producer, "a,topic=b", "c", "a", "b,topic=c", attribute);
  }

  lemma PercentFreeIsPlain(name: string)
    requires NoPercent(name)
    ensures !Contains(name, TOPIC_HOLDER)
  {
    forall i | 0 <= i <= |name| ensures !HasPrefix(name[i..], TOPIC_HOLDER) {
      if name[i..] != "" {
        assert name[i..][0] in name;
      }
    }
  }

  // ---------------------------------------------------------------- sharing with any client at all

  /** Any client, topic or attribute that is not this one gives the same key. */
  ghost predicate SharesWithAny(producer: bool, client: string, topic: string, attribute: string) {
    exists c, t, a :: NoPercent(a) && SameKey(producer, c, t, a, client, topic, attribute)
  }

  const OPEN_HOLDER := "%TOPIC"

  /** The topic occurs in the client at a place where a placeholder could have been. */
  ghost predicate OccursAt(client: string, topic: string, i: nat) {
    i <= |client| && HasPrefix(client[i..], topic) && !HasSuffix(client[..i], OPEN_HOLDER)
  }

  /** The client that has the placeholder in place of the topic. */
  function Masked(client: string, topic: string, i: nat): string
    requires i + |topic| <= |client|
  {
    client[..i] + (TOPIC_HOLDER + client[i + |topic|..])
  }

  /**
   * A placeholder that starts in one text and ends in a placeholder after it begins with all but its last character.
   */
  lemma HolderReaches(a: string, b: string, q: nat)
    requires q < |a| && HasPrefix((a + (TOPIC_HOLDER + b))[q..], TOPIC_HOLDER)
    ensures Contains(a, TOPIC_HOLDER) || HasSuffix(a, OPEN_HOLDER)
  {
    var s := a + (TOPIC_HOLDER + b);
    var found := s[q..][..7];
    assert found == TOPIC_HOLDER;
    var k := |a| - q;
    if k >= 7 {
      assert a[q..][..7] == found;
      assert HasPrefix(a[q..], TOPIC_HOLDER);
    } else {
      assert found[k] == s[|a|] == '%';
      assert k == 6;
      assert a[q..] == found[..6];
    }
  }

  lemma {:induction false} ReplaceAfter(a: string, s: string, name: string)
    requires forall q :: 0 <= q < |a| ==> !HasPrefix((a + s)[q..], TOPIC_HOLDER)
    ensures Replace(a + s, TOPIC_HOLDER, name) == a + Replace(s, TOPIC_HOLDER, name)
    decreases |a|
  {
    if a == "" {
      assert a + s == s;
    } else {
      assert (a + s)[0..] == a + s && (a + s)[1..] == a[1..] + s;
      forall q | 0 <= q < |a[1..]| ensures !HasPrefix((a[1..] + s)[q..], TOPIC_HOLDER) {
        assert (a[1..] + s)[q..] == (a + s)[q + 1..];
      }
      ReplaceAfter(a[1..], s, name);
    }
  }

  /** A text without placeholder that does not end in an open one, before a placeholder and another such text. */
  lemma OneHolder(a: string, b: string, topic: string)
    requires !Contains(a, TOPIC_HOLDER) && !HasSuffix(a, OPEN_HOLDER) && !Contains(b, TOPIC_HOLDER)
    ensures Rewritten(a + (TOPIC_HOLDER + b), topic) == a + (topic + b)
  {
    forall q | 0 <= q < |a| ensures !HasPrefix((a + (TOPIC_HOLDER + b))[q..], TOPIC_HOLDER) {
      if HasPrefix((a + (TOPIC_HOLDER + b))[q..], TOPIC_HOLDER) {
        HolderReaches(a, b, q);
      }
    }
    assert Holder("TOPIC") == TOPIC_HOLDER;
    NothingReplaced(b, TOPIC_HOLDER, topic);
    hide Contains, Replace, Holder;
    ReplaceAfter(a, TOPIC_HOLDER + b, topic);
    ReplaceHolder("TOPIC", b, topic);
  }

  /** The masked client is rewritten to the client. */
  lemma MaskedIsRewritten(client: string, topic: string, i: nat)
    requires !Contains(client, TOPIC_HOLDER) && OccursAt(client, topic, i)
    ensures i + |topic| <= |client| && Masked(client, topic, i) != client
    ensures Rewritten(Masked(client, topic, i), topic) == client
  {
    var a, b := client[..i], client[i + |topic|..];
    assert client[0..i] == a && client[i + |topic|..|client|] == b;
    assert client == a + (topic + b);
    FieldInMasked(a, b);
    hide Contains, Rewritten;
    if Contains(a, TOPIC_HOLDER) {
      PartContains(client, 0, i, TOPIC_HOLDER);
    }
    if Contains(b, TOPIC_HOLDER) {
      PartContains(client, i + |topic|, |client|, TOPIC_HOLDER);
    }
    OneHolder(a, b, topic);
  }

  lemma FieldInMasked(a: string, b: string)
    ensures Contains(a + (TOPIC_HOLDER + b), TOPIC_HOLDER)
  {
    assert (a + (TOPIC_HOLDER + b))[|a|..] == TOPIC_HOLDER + b;
    StartsWith(TOPIC_HOLDER, b);
  }

  /** The first placeholder of the client stands at `i`, and the topic at the same place of what the client becomes. */
  ghost predicate HolderFirst(client: string, r: string, topic: string, i: nat) {
    && i <= |client| && HasPrefix(client[i..], TOPIC_HOLDER) && i <= |r| && client[..i] == r[..i]
    && HasPrefix(r[i..], topic)
    && forall q :: 0 <= q < i ==> !HasPrefix(client[q..], TOPIC_HOLDER)
  }

  lemma HolderLater(client: string, r: string, topic: string, j: nat)
    requires client != "" && !HasPrefix(client, TOPIC_HOLDER) && HolderFirst(client[1..], r, topic, j)
    ensures HolderFirst(client, [client[0]] + r, topic, j + 1)
  {
    var more := [client[0]] + r;
    assert client[0..] == client;
    assert more[j + 1..] == r[j..];
    assert client[j + 1..] == client[1..][j..];
    assert client[..j + 1] == [client[0]] + client[1..][..j];
    assert more[..j + 1] == [client[0]] + r[..j];
    forall q | 0 <= q < j + 1 ensures !HasPrefix(client[q..], TOPIC_HOLDER) {
      if q > 0 {
        assert client[q..] == client[1..][q - 1..];
      }
    }
  }

  lemma {:induction false} FirstHolder(client: string, topic: string) returns (i: nat)
    requires Contains(client, TOPIC_HOLDER)
    ensures HolderFirst(client, Rewritten(client, topic), topic, i)
    decreases |client|
  {
    assert client[0..] == client;
    if HasPrefix(client, TOPIC_HOLDER) {
      i := 0;
      StartsWith(topic, Rewritten(client[7..], topic));
    } else {
      ContainsLater(client, TOPIC_HOLDER);
      assert Rewritten(client, topic) == [client[0]] + Rewritten(client[1..], topic);
      hide HolderFirst, Rewritten, Contains;
      var j := FirstHolder(client[1..], topic);
      HolderLater(client, Rewritten(client[1..], topic), topic, j);
      i := j + 1;
    }
  }

  lemma OpenBeforeHolder(s: string, i: nat)
    requires i <= |s| && HasSuffix(s[..i], OPEN_HOLDER) && HasPrefix(s[i..], TOPIC_HOLDER)
    ensures i >= 6 && HasPrefix(s[i - 6..], TOPIC_HOLDER)
  {
    var found := s[i - 6..][..7];
    assert found[..6] == s[..i][i - 6..];
    assert found[6] == s[i..][..7][0] == '%';
    assert found == OPEN_HOLDER + "%";
  }

  lemma RewrittenOccurs(client: string, topic: string) returns (i: nat)
    requires Contains(client, TOPIC_HOLDER)
    ensures OccursAt(Rewritten(client, topic), topic, i)
  {
    i := FirstHolder(client, topic);
    if HasSuffix(client[..i], OPEN_HOLDER) {
      OpenBeforeHolder(client, i);
    }
  }

  /**
   * Against any client at all, for names without the topic placeholder: the keys are shared if and only if one of the
   * names brings a topic field of its own or the topic occurs in the client.
   */
  lemma SharesWithAnyIff(producer: bool, client: string, topic: string, attribute: string)
    requires Plainly(client, attribute) && !Contains(topic, TOPIC_HOLDER)
    ensures SharesWithAny(producer, client, topic, attribute)
       <==> HasField(client) || HasField(topic) || exists i :: OccursAt(client, topic, i)
  {
    hide SameKey, HasField, OccursAt;
    if HasField(client) {
      var c, t := ShorterClient(client, topic);
      OtherReadingShares(producer, c, t, client, topic, attribute);
    } else if HasField(topic) {
      var i := SomeField(topic);
      var c, t := LongerClient(client, topic, i);
      OtherReadingShares(producer, c, t, client, topic, attribute);
    } else if i :| OccursAt(client, topic, i) {
      MaskedShares(producer, client, topic, attribute, i);
    }
    if c, t, a :| NoPercent(a) && SameKey(producer, c, t, a, client, topic, attribute) {
      SharedWithAny(producer, c, t, a, client, topic, attribute);
    }
  }

  lemma SomeField(topic: string) returns (i: nat)
    requires HasField(topic) && !Contains(topic, TOPIC_HOLDER)
    ensures i <= |topic| && HasPrefix(topic[i..], TOPIC_FIELD) && !Contains(topic[..i], TOPIC_HOLDER)
  {
    i :| 0 <= i <= |topic| && HasPrefix(topic[i..], TOPIC_FIELD);
    assert topic[0..i] == topic[..i];
    if Contains(topic[..i], TOPIC_HOLDER) {
      PartContains(topic, 0, i, TOPIC_HOLDER);
    }
  }

  lemma MaskedShares(producer: bool, client: string, topic: string, attribute: string, i: nat)
    requires Plainly(client, attribute) && OccursAt(client, topic, i)
    ensures i + |topic| <= |client|
         && SameKey(producer, Masked(client, topic, i), topic, attribute, client, topic, attribute)
  {
    MaskedIsRewritten(client, topic, i);
    ReplaceKeepsIff(client, TOPIC_HOLDER, topic);
    hide ShippedKey, Replace, TopicKeyOf, Masked;
    ShippedKeyIs(producer, Masked(client, topic, i), topic, attribute);
    ShippedKeyIs(producer, client, topic, attribute);
  }

  lemma SharedWithAny(
    producer: bool, c: string, t: string, a: string, client: string, topic: string, attribute: string)
    requires NoPercent(a) && Plainly(client, attribute) && SameKey(producer, c, t, a, client, topic, attribute)
    ensures HasField(client) || HasField(topic) || exists i :: OccursAt(client, topic, i)
  {
    ReplaceKeepsIff(client, TOPIC_HOLDER, topic);
    ReplaceKeepsIff(c, TOPIC_HOLDER, t);
    ShippedKeyIs(producer, c, t, a);
    ShippedKeyIs(producer, client, topic, attribute);
    hide ShippedKey, TopicKeyOf, Replace, HasField, OccursAt, Contains;
    var r := Rewritten(c, t);
    EqualKeys(Lead(producer), r, t, a, client, topic, attribute);
    if |client| < |r| {
      TwoReadings(client, topic, r, t);
    } else if |r| < |client| {
      TwoReadings(r, t, client, topic);
    } else {
      SameReading(r, t, client, topic);
      var i := RewrittenOccurs(c, t);
    }
  }
}
