/** Finding the ids of a client's producers or consumers in its MBean names. */
module ClientIds {
  import opened Wrappers
  import opened Strings

  // ---------------------------------------------------------------- cutting and splitting

  /** `strings.Cut`: what stands before and after the first occurrence of the separator. */
  function Cut(s: string, sep: string): Option<(string, string)>
    requires sep != ""
  {
    if HasPrefix(s, sep) then Some(("", s[|sep|..]))
    else if s == "" then None
    else
      var rest := Cut(s[1..], sep);
      if rest.Some? then Some(([s[0]] + rest.value.0, rest.value.1)) else None
  }

  function Split(s: string, c: char): seq<string>
    decreases |s|
  {
    var i := IndexOf(s, c);
    if i == |s| then [s] else [s[..i]] + Split(s[i + 1..], c)
  }

  function Join(fields: seq<string>, c: char): string {
    if fields == [] then "" else if |fields| == 1 then fields[0] else fields[0] + [c] + Join(fields[1..], c)
  }

  lemma {:induction false} SplitUndoesJoin(fields: seq<string>, c: char)
    requires fields != [] && forall f :: f in fields ==> c !in f
    ensures Split(Join(fields, c), c) == fields
  {
    assert fields[0] in fields;
    if |fields| == 1 {
      NoIndex(fields[0], c);
    } else {
      var rest := Join(fields[1..], c);
      FirstIndex(fields[0], c, rest);
      assert fields[0] + [c] + rest == fields[0] + ([c] + rest);
      Separated(Join(fields, c), fields[0], c, rest);
      SplitUndoesJoin(fields[1..], c);
    }
  }

  lemma {:induction false} CutAtChar(a: string, c: char, b: string)
    requires c !in a
    ensures Cut(a + ([c] + b), [c]) == Some((a, b))
  {
    var s := a + ([c] + b);
    if a == "" {
      assert s == [c] + b;
    } else {
      assert s[0] == a[0] && a[0] in a && s[1..] == a[1..] + ([c] + b);
      CutAtChar(a[1..], c, b);
      assert [a[0]] + a[1..] == a;
    }
  }

  // ---------------------------------------------------------------- the extraction

  function Marker(idField: string): string {
    idField + "="
  }

  /** What follows the marker in the first field that contains it. */
  function FirstId(fields: seq<string>, marker: string): string
    requires marker != ""
  {
    if fields == [] then ""
    else
      var cut := Cut(fields[0], marker);
      if cut.Some? then cut.value.1 else FirstId(fields[1..], marker)
  }

  function IdFromMBean(mBeanName: string, idField: string): string {
    var cut := Cut(mBeanName, ":");
    if cut.None? then "" else FirstId(Split(cut.value.1, ','), Marker(idField))
  }

  /** A name without a domain has no id. */
  lemma NoDomainNoId(mBeanName: string, idField: string)
    requires ':' !in mBeanName
    ensures IdFromMBean(mBeanName, idField) == ""
  {
    NoCut(mBeanName, ':');
  }

  lemma {:induction false} NoCut(s: string, c: char)
    requires c !in s
    ensures Cut(s, [c]).None?
  {
    if s != "" {
      NoCut(s[1..], c);
      assert !HasPrefix(s, [c]) by {
        assert s[..1][0] == s[0];
      }
    }
  }

  function IdFromAppInfo(mBeanName: string): string {
    IdFromMBean(mBeanName, "id")
  }

  function IdFromMBeanWithClientIDField(mBeanName: string): string {
    IdFromMBean(mBeanName, "client-id")
  }

  // ---------------------------------------------------------------- what it finds in a well-formed name

  function FieldTexts(keys: seq<string>, values: seq<string>): (fields: seq<string>)
    requires |keys| == |values|
    ensures |fields| == |keys|
  {
    if keys == [] then [] else [keys[0] + ("=" + values[0])] + FieldTexts(keys[1..], values[1..])
  }

  /** `domain:key=value,key=value,...` */
  function BeanName(domain: string, keys: seq<string>, values: seq<string>): string
    requires |keys| == |values|
  {
    domain + (":" + Join(FieldTexts(keys, values), ','))
  }

  ghost predicate WellFormed(domain: string, keys: seq<string>, values: seq<string>) {
    && ':' !in domain && |keys| == |values| && keys != []
    && (forall k :: k in keys ==> ',' !in k && '=' !in k)
    && (forall v :: v in values ==> ',' !in v)
  }

  /**
   * The id that one property yields: its value if the key ends with the id field, else what follows a marker in the
   * value.
   */
  function FieldId(key: string, value: string, idField: string): Option<string> {
    if HasSuffix(key, idField) then Some(value)
    else
      var cut := Cut(value, Marker(idField));
      if cut.Some? then Some(cut.value.1) else None
  }

  function LookUp(keys: seq<string>, values: seq<string>, idField: string): string
    requires |keys| == |values|
  {
    if keys == [] then ""
    else
      var id := FieldId(keys[0], values[0], idField);
      if id.Some? then id.value else LookUp(keys[1..], values[1..], idField)
  }

  /** The field begins with the marker exactly when its key is the id field. */
  lemma MarkerFirst(key: string, value: string, idField: string)
    requires '=' !in key && '=' !in idField
    ensures HasPrefix(key + ("=" + value), Marker(idField)) <==> key == idField
  {
    var s := key + ("=" + value);
    if key == idField {
      assert s == Marker(idField) + value;
      StartsWith(Marker(idField), value);
    }
    if HasPrefix(s, Marker(idField)) {
      var rest := s[|Marker(idField)|..];
      assert s == idField + ['='] + rest;
      assert s == key + ['='] + value;
      SeparatorSplit(key, value, idField, rest, '=');
    }
  }

  lemma {:induction false} CutField(key: string, value: string, idField: string)
    requires '=' !in key && '=' !in idField
    ensures var cut, id := Cut(key + ("=" + value), Marker(idField)), FieldId(key, value, idField);
            if cut.Some? then id == Some(cut.value.1) else id == None
  {
    var s := key + ("=" + value);
    MarkerFirst(key, value, idField);
    if key == idField {
      assert s == Marker(idField) + value;
    } else if key == "" {
      assert s[1..] == value;
    } else {
      assert s[1..] == key[1..] + ("=" + value);
      CutField(key[1..], value, idField);
      SuffixOfTail(key, idField);
    }
  }

  lemma SuffixOfTail(key: string, suffix: string)
    requires key != "" && key != suffix
    ensures HasSuffix(key[1..], suffix) <==> HasSuffix(key, suffix)
  {
    if |suffix| < |key| {
      assert key[1..][|key| - 1 - |suffix|..] == key[|key| - |suffix|..];
    } else if |suffix| == |key| {
      assert key[0..] == key;
    }
  }

  lemma {:induction false} FirstIdIsLookUp(keys: seq<string>, values: seq<string>, idField: string)
    requires |keys| == |values| && '=' !in idField && forall k :: k in keys ==> '=' !in k
    ensures FirstId(FieldTexts(keys, values), Marker(idField)) == LookUp(keys, values, idField)
  {
    if keys != [] {
      CutField(keys[0], values[0], idField);
      FirstIdIsLookUp(keys[1..], values[1..], idField);
      assert FieldTexts(keys, values)[1..] == FieldTexts(keys[1..], values[1..]);
    }
  }

  lemma {:induction false} TextsCommaFree(keys: seq<string>, values: seq<string>)
    requires |keys| == |values|
    requires (forall k :: k in keys ==> ',' !in k) && forall v :: v in values ==> ',' !in v
    ensures forall f :: f in FieldTexts(keys, values) ==> ',' !in f
  {
    if keys != [] {
      assert keys[0] in keys && values[0] in values;
      TextsCommaFree(keys[1..], values[1..]);
    }
  }

  /** For every well-formed bean name, the extraction is a lookup among the properties, by the end of the key. */
  lemma IdOfBean(domain: string, keys: seq<string>, values: seq<string>, idField: string)
    requires WellFormed(domain, keys, values) && '=' !in idField
    ensures IdFromMBean(BeanName(domain, keys, values), idField) == LookUp(keys, values, idField)
  {
    hide Cut, Split, Join, FirstId, LookUp, FieldTexts;
    var fields := FieldTexts(keys, values);
    CutAtChar(domain, ':', Join(fields, ','));
    TextsCommaFree(keys, values);
    SplitUndoesJoin(fields, ',');
    FirstIdIsLookUp(keys, values, idField);
  }

  // ---------------------------------------------------------------- when that is the property of exactly that name

  /** The value of the first property that is named exactly like the id field. */
  function Property(keys: seq<string>, values: seq<string>, idField: string): string
    requires |keys| == |values|
  {
    if keys == [] then "" else if keys[0] == idField then values[0] else Property(keys[1..], values[1..], idField)
  }

  /** A longer key that ends with the id field comes only after the id field itself. */
  ghost predicate NoDecoy(keys: seq<string>, idField: string) {
    forall k :: 0 <= k < |keys| && HasSuffix(keys[k], idField) && keys[k] != idField ==> idField in keys[..k]
  }

  predicate Unmarked(values: seq<string>, idField: string) {
    forall v :: v in values ==> Cut(v, Marker(idField)).None?
  }

  ghost predicate FindsProperty(domain: string, keys: seq<string>, values: seq<string>, idField: string)
    requires |keys| == |values|
  {
    IdFromMBean(BeanName(domain, keys, values), idField) == Property(keys, values, idField)
  }

  lemma {:induction false} LookUpIsProperty(keys: seq<string>, values: seq<string>, idField: string)
    requires |keys| == |values| && NoDecoy(keys, idField) && Unmarked(values, idField)
    ensures LookUp(keys, values, idField) == Property(keys, values, idField)
  {
    if keys != [] {
      assert values[0] in values;
      if keys[0] == idField {
        assert keys[0][0..] == idField;
      } else {
        assert !HasSuffix(keys[0], idField);
        DecoysAfter(keys, idField);
        LookUpIsProperty(keys[1..], values[1..], idField);
      }
    }
  }

  lemma DecoysAfter(keys: seq<string>, idField: string)
    requires keys != [] && keys[0] != idField && NoDecoy(keys, idField)
    ensures NoDecoy(keys[1..], idField)
  {
    forall k | 0 <= k < |keys| - 1 && HasSuffix(keys[1..][k], idField) && keys[1..][k] != idField
      ensures idField in keys[1..][..k]
    {
      assert keys[1..][k] == keys[k + 1];
      assert keys[..k + 1] == [keys[0]] + keys[1..][..k];
    }
  }

  /** Values that tell the id field from the others. */
  function Telling(keys: seq<string>, idField: string): (values: seq<string>)
    ensures |values| == |keys| && forall v :: v in values ==> v == "" || v == "x"
  {
    if keys == [] then [] else [if keys[0] == idField then "" else "x"] + Telling(keys[1..], idField)
  }

  lemma {:induction false} TellingProperty(keys: seq<string>, idField: string)
    ensures Property(keys, Telling(keys, idField), idField) == ""
  {
    if keys != [] {
      assert Telling(keys, idField)[1..] == Telling(keys[1..], idField);
      TellingProperty(keys[1..], idField);
    }
  }

  lemma ShortIsUnmarked(v: string, idField: string)
    requires v == "" || v == "x"
    ensures Cut(v, Marker(idField)).None?
  {
    var m := Marker(idField);
    assert m[|m| - 1] == '=';
    if v == "x" {
      assert HasPrefix(v, m) ==> m == "x";
      assert v[1..] == "";
    }
  }

  lemma {:induction false} TellingLookUp(keys: seq<string>, idField: string, k: nat)
    requires k < |keys| && HasSuffix(keys[k], idField) && keys[k] != idField && idField !in keys[..k]
    ensures LookUp(keys, Telling(keys, idField), idField) == "x"
  {
    var values := Telling(keys, idField);
    assert values[1..] == Telling(keys[1..], idField);
    if k == 0 {
      assert values[0] == "x";
    } else {
      assert keys[..k][0] == keys[0] && keys[1..][..k - 1] == keys[..k][1..];
      ShortIsUnmarked(values[0], idField);
      TellingLookUp(keys[1..], idField, k - 1);
    }
  }

  /**
   * Whatever the values (without a marker inside), the id found is the property of exactly that name, if and only if no
   * longer key that ends with the same text stands before it.
   */
  lemma FindsPropertyIff(domain: string, keys: seq<string>, idField: string)
    requires ':' !in domain && keys != [] && (forall k :: k in keys ==> ',' !in k && '=' !in k) && '=' !in idField
    ensures (forall values :: WellFormed(domain, keys, values) && Unmarked(values, idField)
               ==> FindsProperty(domain, keys, values, idField))
       <==> NoDecoy(keys, idField)
  {
    if NoDecoy(keys, idField) {
      forall values | WellFormed(domain, keys, values) && Unmarked(values, idField)
        ensures FindsProperty(domain, keys, values, idField)
      {
        IdOfBean(domain, keys, values, idField);
        LookUpIsProperty(keys, values, idField);
      }
    } else {
      DecoyFound(domain, keys, idField);
    }
  }

  lemma DecoyFound(domain: string, keys: seq<string>, idField: string)
    requires ':' !in domain && keys != [] && (forall k :: k in keys ==> ',' !in k && '=' !in k) && '=' !in idField
    requires !NoDecoy(keys, idField)
    ensures var values := Telling(keys, idField);
            WellFormed(domain, keys, values) && Unmarked(values, idField)
                && !FindsProperty(domain, keys, values, idField)
  {
    var k :| 0 <= k < |keys| && HasSuffix(keys[k], idField) && keys[k] != idField && idField !in keys[..k];
    var values := Telling(keys, idField);
    forall v | v in values ensures Cut(v, Marker(idField)).None? {
      ShortIsUnmarked(v, idField);
    }
    IdOfBean(domain, keys, values, idField);
    TellingLookUp(keys, idField, k);
    TellingProperty(keys, idField);
  }

  /**
   * With no restriction on the values, the id found is always the property of exactly that name if and only if it is
   * the first property: a marker inside any value before it would be found instead.
   */
  lemma AlwaysFindsPropertyIff(domain: string, keys: seq<string>, idField: string)
    requires ':' !in domain && keys != [] && (forall k :: k in keys ==> ',' !in k && '=' !in k)
    requires '=' !in idField && ',' !in idField
    ensures (forall values :: WellFormed(domain, keys, values) ==> FindsProperty(domain, keys, values, idField))
       <==> keys[0] == idField
  {
    if keys[0] == idField {
      forall values | WellFormed(domain, keys, values) ensures FindsProperty(domain, keys, values, idField) {
        IdOfBean(domain, keys, values, idField);
        assert keys[0][0..] == idField;
      }
    } else {
      MarkedValueFound(domain, keys, idField);
    }
  }

  /** The first value holds a marker, the others are empty. */
  function Marked(keys: seq<string>, idField: string): (values: seq<string>)
    requires keys != []
    ensures |values| == |keys|
  {
    [Marker(idField) + "x"] + seq(|keys| - 1, _ => "")
  }

  lemma MarkedValueFound(domain: string, keys: seq<string>, idField: string)
    requires ':' !in domain && keys != [] && (forall k :: k in keys ==> ',' !in k && '=' !in k)
    requires '=' !in idField && ',' !in idField && keys[0] != idField
    ensures WellFormed(domain, keys, Marked(keys, idField))
         && !FindsProperty(domain, keys, Marked(keys, idField), idField)
  {
    var values := Marked(keys, idField);
    IdOfBean(domain, keys, values, idField);
    StartsWith(Marker(idField), "x");
    assert (Marker(idField) + "x")[|Marker(idField)|..] == "x";
    assert values[1..] == seq(|keys| - 1, _ => "");
    EmptyProperty(keys[1..], values[1..], idField);
  }

  lemma {:induction false} EmptyProperty(keys: seq<string>, values: seq<string>, idField: string)
    requires |keys| == |values| && forall i :: 0 <= i < |values| ==> values[i] == ""
    ensures Property(keys, values, idField) == ""
  {
    if keys != [] {
      EmptyProperty(keys[1..], values[1..], idField);
    }
  }

  /** In the bean d:client-id=a,id=b, the app-info extractor takes the client id for the id. */
  lemma ClientIdTakenForId()
    ensures IdFromAppInfo(BeanName("d", ["client-id", "id"], ["a", "b"])) == "a"
  {
    IdOfBean("d", ["client-id", "id"], ["a", "b"], "id");
    assert "client-id"[|"client-id"| - |"id"|..] == "id";
  }

  // ---------------------------------------------------------------- detection

  function Ids(mBeanNames: seq<string>, extractor: string -> string): seq<string> {
    if mBeanNames == [] then []
    else
      var id := extractor(mBeanNames[|mBeanNames| - 1]);
      Ids(mBeanNames[..|mBeanNames| - 1], extractor) + if id != "" then [id] else []
  }

  method IdsFromMBeanNames(mBeanNames: seq<string>, extractor: string -> string) returns (ids: seq<string>)
    ensures ids == Ids(mBeanNames, extractor)
  {
    ids := [];
    for i := 0 to |mBeanNames|
      invariant ids == Ids(mBeanNames[..i], extractor)
    {
      assert mBeanNames[..i + 1][..i] == mBeanNames[..i];
      var id := extractor(mBeanNames[i]);
      if id != "" {
        ids := ids + [id];
      }
    }
    assert mBeanNames[..|mBeanNames|] == mBeanNames;
  }

  datatype ExtractInfo = ExtractInfo(pattern: string, extractor: string -> string)

  datatype Detected = Detected(names: seq<string>, failed: bool)

  /** What one attempt yields, `beans` being the client's answer: the names of the beans, or None for an error. */
  function Attempt(info: ExtractInfo, beans: Option<seq<string>>): Detected {
    if beans.None? then Detected([], true) else Detected(Ids(beans.value, info.extractor), false)
  }

  predicate Productive(infos: seq<ExtractInfo>, query: (nat, string) -> Option<seq<string>>, i: nat)
    requires i < |infos|
  {
    Attempt(infos[i], query(i, infos[i].pattern)).names != []
  }

  /** The given name; else the first attempt that yields one; else no name, and an error if the last attempt failed. */
  ghost predicate Resolved(
    infos: seq<ExtractInfo>, givenName: string, query: (nat, string) -> Option<seq<string>>, detected: Detected)
  {
    && (givenName != "" ==> detected == Detected([givenName], false))
    && (givenName == ""
        ==> forall i :: (
              && 0 <= i < |infos| && Productive(infos, query, i)
              && (forall j :: 0 <= j < i ==> !Productive(infos, query, j))
              ==> detected == Attempt(infos[i], query(i, infos[i].pattern)) && !detected.failed))
    && (givenName == "" && (forall i :: 0 <= i < |infos| ==> !Productive(infos, query, i))
        ==> detected == Detected([], infos != [] && query(|infos| - 1, infos[|infos| - 1].pattern).None?))
  }

  /**
   * The given name; else the first attempt that yields a name; else the outcome of the last attempt, which has no
   * names.
   */
  method GetClientIDs(infos: seq<ExtractInfo>, givenName: string, query: (nat, string) -> Option<seq<string>>)
    returns (detected: Detected)
    ensures Resolved(infos, givenName, query, detected)
  {
    if givenName != "" {
      return Detected([givenName], false);
    }
    detected := Detected([], false);
    for i := 0 to |infos|
      invariant forall j :: 0 <= j < i ==> !Productive(infos, query, j)
      invariant detected
             == if i == 0 then Detected([], false) else Attempt(infos[i - 1], query(i - 1, infos[i - 1].pattern))
    {
      var beans := query(i, infos[i].pattern);
      if beans.None? {
        detected := Detected([], true);
      } else {
        var names := IdsFromMBeanNames(beans.value, infos[i].extractor);
        detected := Detected(names, false);
      }
      if !detected.failed && |detected.names| > 0 {
        assert Productive(infos, query, i);
        return;
      }
    }
    assert infos != [] ==> !Productive(infos, query, |infos| - 1);
  }

  /** What stands before the id in the name of a bean of one kind. */
  function Stem(domain: string, beanType: string, idField: string): string {
    domain + (":type=" + (beanType + ("," + (idField + "="))))
  }

  const CONSUMER_INFO := [
    ExtractInfo(Stem("kafka.consumer", "consumer-fetch-manager-metrics", "client-id") + "*",
                IdFromMBeanWithClientIDField),
    ExtractInfo(Stem("kafka.consumer", "app-info", "id") + "*", IdFromAppInfo)]

  const PRODUCER_INFO := [
    ExtractInfo(Stem("kafka.producer", "producer-metrics", "client-id") + "*", IdFromMBeanWithClientIDField),
    ExtractInfo(Stem("kafka.producer", "app-info", "id") + "*", IdFromAppInfo)]

  /** The metric beans answer for these clients; or the app-info beans do, and the metric beans yield nothing. */
  predicate Answers(
    infos: seq<ExtractInfo>, domain: string, beanType: string, query: (nat, string) -> Option<seq<string>>,
    ids: seq<string>)
    requires |infos| == 2
  {
    var first, second := query(0, infos[0].pattern), query(1, infos[1].pattern);
    || first == Some(Beans(domain, beanType, "client-id", ids))
    || ((first == None || first == Some([])) && second == Some(Beans(domain, "app-info", "id", ids)))
  }

  /** The result is the given name, or the ids that the beans were named after, whenever the beans are of that kind. */
  ghost predicate Detects(
    infos: seq<ExtractInfo>, domain: string, beanType: string, givenName: string,
    query: (nat, string) -> Option<seq<string>>, detected: Detected)
    requires |infos| == 2
  {
    && (givenName != "" ==> detected == Detected([givenName], false))
    && forall ids :: (
         givenName == "" && ids != [] && ProperIds(ids) && Answers(infos, domain, beanType, query, ids)
         ==> detected == Detected(ids, false))
  }

  /** The names `stem` + id, one for each id. */
  function Named(stem: string, ids: seq<string>): seq<string> {
    seq(|ids|, i requires 0 <= i < |ids| => stem + ids[i])
  }

  /**
   * Without a given name: the ids are found when the beans queried first are named after them, and also when the first
   * query yields nothing and the beans queried next are.
   */
  ghost predicate DetectsNamed(
    metricStem: string, appStem: string, query: (nat, string) -> Option<seq<string>>, detected: Detected)
  {
    var metrics, appInfo := query(0, metricStem + "*"), query(1, appStem + "*");
    forall ids :: (
      && ids != [] && ProperIds(ids)
      && (|| metrics == Some(Named(metricStem, ids))
          || (metrics in {None, Some([])} && appInfo == Some(Named(appStem, ids))))
      ==> detected == Detected(ids, false))
  }

  method DetectConsumerIDs(givenName: string, query: (nat, string) -> Option<seq<string>>) returns (detected: Detected)
    ensures givenName != "" ==> detected == Detected([givenName], false)
    ensures givenName == "" ==>
              DetectsNamed(Stem("kafka.consumer", "consumer-fetch-manager-metrics", "client-id"),
                           Stem("kafka.consumer", "app-info", "id"), query, detected)
  {
    hide *;
    detected := GetClientIDs(CONSUMER_INFO, givenName, query);
    InfosProper();
    DetectsIds(CONSUMER_INFO, "kafka.consumer", "consumer-fetch-manager-metrics", givenName, query, detected);
    DetectsByName(CONSUMER_INFO, "kafka.consumer", "consumer-fetch-manager-metrics", givenName, query, detected);
  }

  method DetectProducerIDs(givenName: string, query: (nat, string) -> Option<seq<string>>) returns (detected: Detected)
    ensures givenName != "" ==> detected == Detected([givenName], false)
    ensures givenName == "" ==>
              DetectsNamed(Stem("kafka.producer", "producer-metrics", "client-id"),
                           Stem("kafka.producer", "app-info", "id"), query, detected)
  {
    hide *;
    detected := GetClientIDs(PRODUCER_INFO, givenName, query);
    InfosProper();
    DetectsIds(PRODUCER_INFO, "kafka.producer", "producer-metrics", givenName, query, detected);
    DetectsByName(PRODUCER_INFO, "kafka.producer", "producer-metrics", givenName, query, detected);
  }

  lemma DetectsByName(
    infos: seq<ExtractInfo>, domain: string, beanType: string, givenName: string,
    query: (nat, string) -> Option<seq<string>>, detected: Detected)
    requires ProperInfos(infos, domain, beanType) && Detects(infos, domain, beanType, givenName, query, detected)
    ensures givenName != "" ==> detected == Detected([givenName], false)
    ensures givenName == "" ==>
              DetectsNamed(Stem(domain, beanType, "client-id"), Stem(domain, "app-info", "id"), query, detected)
  {
    hide Stem, Beans, Named, ProperIds;
    forall ids
      ensures Named(Stem(domain, beanType, "client-id"), ids) == Beans(domain, beanType, "client-id", ids)
      ensures Named(Stem(domain, "app-info", "id"), ids) == Beans(domain, "app-info", "id", ids)
    {
      BeansNamed(domain, beanType, "client-id", ids);
      BeansNamed(domain, "app-info", "id", ids);
    }
  }

  lemma BeanNamed(domain: string, beanType: string, idField: string, id: string)
    ensures BeanName(domain, ["type", idField], [beanType, id]) == Stem(domain, beanType, idField) + id
  {
    var keys, values := ["type", idField], [beanType, id];
    var first, second := "type" + ("=" + beanType), idField + ("=" + id);
    assert keys[1..] == [idField] && values[1..] == [id];
    assert FieldTexts([idField], [id]) == [second];
    assert FieldTexts(keys, values) == [first, second];
    assert [first, second][1..] == [second];
    assert Join([first, second], ',') == first + [','] + second;
    var stem := Stem(domain, beanType, idField);
    assert stem + id == domain + (":type=" + (beanType + ("," + (idField + ("=" + id)))));
    assert ":type=" + (beanType + ("," + second)) == ":" + (first + [','] + second);
  }

  lemma {:induction false} BeansNamed(domain: string, beanType: string, idField: string, ids: seq<string>)
    ensures Beans(domain, beanType, idField, ids) == Named(Stem(domain, beanType, idField), ids)
  {
    if ids != [] {
      BeansNamed(domain, beanType, idField, ids[..|ids| - 1]);
      BeanNamed(domain, beanType, idField, ids[|ids| - 1]);
      hide BeanName, Stem;
    }
  }

  ghost predicate ProperInfos(infos: seq<ExtractInfo>, domain: string, beanType: string) {
    && |infos| == 2 && ':' !in domain && ',' !in beanType && '=' !in beanType
    && infos[0] == ExtractInfo(Stem(domain, beanType, "client-id") + "*", IdFromMBeanWithClientIDField)
    && infos[1] == ExtractInfo(Stem(domain, "app-info", "id") + "*", IdFromAppInfo)
  }

  lemma InfosProper()
    ensures ProperInfos(CONSUMER_INFO, "kafka.consumer", "consumer-fetch-manager-metrics")
    ensures ProperInfos(PRODUCER_INFO, "kafka.producer", "producer-metrics")
  {
    hide Stem;
  }

  lemma DetectsIds(
    infos: seq<ExtractInfo>, domain: string, beanType: string, givenName: string,
    query: (nat, string) -> Option<seq<string>>, detected: Detected)
    requires ProperInfos(infos, domain, beanType) && Resolved(infos, givenName, query, detected)
    ensures Detects(infos, domain, beanType, givenName, query, detected)
  {
    hide Productive, Attempt, Answers, ProperIds;
    forall ids | givenName == "" && ids != [] && ProperIds(ids) && Answers(infos, domain, beanType, query, ids)
      ensures detected == Detected(ids, false)
    {
      AttemptsYield(infos, domain, beanType, query, ids);
    }
  }

  lemma {:induction false} SameExtraction(names: seq<string>, f: string -> string, g: string -> string)
    requires forall name :: f(name) == g(name)
    ensures Ids(names, f) == Ids(names, g)
  {
    if names != [] {
      SameExtraction(names[..|names| - 1], f, g);
    }
  }

  /** The first attempt that yields anything yields the ids of the clients. */
  lemma AttemptsYield(
    infos: seq<ExtractInfo>, domain: string, beanType: string, query: (nat, string) -> Option<seq<string>>,
    ids: seq<string>)
    requires ProperInfos(infos, domain, beanType)
    requires ids != [] && ProperIds(ids) && Answers(infos, domain, beanType, query, ids)
    ensures exists i :: (
              && 0 <= i < 2 && Productive(infos, query, i) && (forall j :: 0 <= j < i ==> !Productive(infos, query, j))
              && Attempt(infos[i], query(i, infos[i].pattern)) == Detected(ids, false))
  {
    FieldsProper();
    if query(0, infos[0].pattern) == Some(Beans(domain, beanType, "client-id", ids)) {
      IdsOfBeans(domain, beanType, "client-id", ids);
      var beans := Beans(domain, beanType, "client-id", ids);
      SameExtraction(beans, name => IdFromMBean(name, "client-id"), IdFromMBeanWithClientIDField);
      assert Productive(infos, query, 0);
    } else {
      IdsOfBeans(domain, "app-info", "id", ids);
      var beans := Beans(domain, "app-info", "id", ids);
      SameExtraction(beans, name => IdFromMBean(name, "id"), IdFromAppInfo);
      assert !Productive(infos, query, 0) && Productive(infos, query, 1);
    }
  }

  lemma FieldsProper()
    ensures ',' !in "client-id" && '=' !in "client-id" && !HasSuffix("type", "client-id")
    ensures ',' !in "id" && '=' !in "id" && !HasSuffix("type", "id")
    ensures ',' !in "app-info" && '=' !in "app-info"
  {
    assert "type"[2..][0] == 'p';
  }

  /** The beans of these clients, one for each id: `domain:type=t,field=id`. */
  function Beans(domain: string, beanType: string, idField: string, ids: seq<string>): seq<string> {
    if ids == [] then []
    else
      Beans(domain, beanType, idField, ids[..|ids| - 1])
          + [BeanName(domain, ["type", idField], [beanType, ids[|ids| - 1]])]
  }

  predicate ProperId(id: string) {
    id != "" && ',' !in id
  }

  predicate ProperIds(ids: seq<string>) {
    forall id :: id in ids ==> ProperId(id)
  }

  /** Detection gives back the ids that the beans were named after, in order. */
  lemma {:induction false} IdsOfBeans(domain: string, beanType: string, idField: string, ids: seq<string>)
    requires ':' !in domain && ',' !in beanType && '=' !in beanType
    requires ',' !in idField && '=' !in idField && !HasSuffix("type", idField)
    requires ProperIds(ids)
    ensures Ids(Beans(domain, beanType, idField, ids), name => IdFromMBean(name, idField)) == ids
  {
    if ids != [] {
      var init, last := ids[..|ids| - 1], ids[|ids| - 1];
      IdsOfBeans(domain, beanType, idField, init);
      assert ProperId(last);
      IdOfTypedBean(domain, beanType, idField, last);
      var beans := Beans(domain, beanType, idField, ids);
      assert beans[..|beans| - 1] == Beans(domain, beanType, idField, init);
      hide IdFromMBean, BeanName, Beans;
    }
  }

  lemma IdOfTypedBean(domain: string, beanType: string, idField: string, id: string)
    requires ':' !in domain && ',' !in beanType && '=' !in beanType
    requires ',' !in idField && '=' !in idField && !HasSuffix("type", idField) && ',' !in id
    ensures IdFromMBean(BeanName(domain, ["type", idField], [beanType, id]), idField) == id
  {
    var keys, values := ["type", idField], [beanType, id];
    IdOfBean(domain, keys, values, idField);
    NoMarker(beanType, idField);
    assert keys[1..] == [idField] && values[1..] == [id];
    assert idField[0..] == idField;
  }

  lemma {:induction false} NoMarker(s: string, idField: string)
    requires '=' !in s
    ensures Cut(s, Marker(idField)).None?
  {
    var m := Marker(idField);
    if |m| <= |s| {
      assert s[|m| - 1] in s && s[..|m|][|m| - 1] == s[|m| - 1];
    }
    if s != "" {
      NoMarker(s[1..], idField);
    }
  }
}
