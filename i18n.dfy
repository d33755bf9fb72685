/**
 * The event-type table and its label lookups (src/lib/i18n.ts). Labels are
 * compared after `normalizeEventLabel`, which drops a leading token (the
 * emoji of an option label), trims and lower-cases.
 */
module I18n {
  import opened Wrappers
  import opened Text

  datatype Language = En | Ru

  const DefaultLanguage: Language := En

  datatype EventType = EventType(value: string, emoji: string, en: string, ru: string)
  {
    function Label(language: Language): string {
      match language
      case En => en
      case Ru => ru
    }
  }

  /** The rows of `EVENT_TYPES`. */
  const Birthday: EventType := EventType("birthday", "\U{1F382}", "Birthday", "День рождения")
  const NewYear: EventType := EventType("new-year", "\U{1F384}", "New Year", "Новый год")
  const Christmas: EventType := EventType("christmas", "\U{1F385}", "Christmas", "Рождество")
  const Wedding: EventType := EventType("wedding", "\U{1F48D}", "Wedding", "Свадьба")
  const Anniversary: EventType := EventType("anniversary", "\U{1F491}", "Anniversary", "Годовщина")
  const Valentines: EventType := EventType("valentines", "\U{1F49D}", "Valentine's Day", "День Святого Валентина")
  const WomensDay: EventType := EventType("womens-day", "\U{1F338}", "Women's Day", "8 Марта")
  const MensDay: EventType := EventType("mens-day", "\U{1F396}\U{FE0F}", "Men's Day", "23 Февраля")
  const Graduation: EventType := EventType("graduation", "\U{1F393}", "Graduation", "Выпускной")
  const BabyShower: EventType := EventType("baby-shower", "\U{1F37C}", "Baby Shower", "Рождение ребенка")
  const Other: EventType := EventType("other", "\U{2728}", "Other", "Другое")

  const EventTypes: seq<EventType> := [
    Birthday, NewYear, Christmas, Wedding, Anniversary, Valentines,
    WomensDay, MensDay, Graduation, BabyShower, Other
  ]

  /** `EVENT_TYPE_KEYS`: the values of the table. */
  const EventTypeKeys: set<string> := set t | t in EventTypes :: t.value

  /** The index of the first whitespace character, or `|s|`. */
  function FirstSpace(s: string): (i: nat)
    ensures i <= |s|
  {
    if s == [] || IsSpace(s[0]) then 0 else 1 + FirstSpace(s[1..])
  }

  lemma {:induction false} FirstSpaceIs(s: string, k: nat)
    requires k <= |s| && (k < |s| ==> IsSpace(s[k]))
    requires forall j :: 0 <= j < k ==> !IsSpace(s[j])
    ensures FirstSpace(s) == k
    decreases k
  {
    if k > 0 {
      FirstSpaceIs(s[1..], k - 1);
    }
  }

  /** `s.replace(/^[^\s]+\s/, '')`: a run of non-blanks at the start and the blank after it are dropped. */
  function DropFirstToken(s: string): string {
    var j := FirstSpace(s);
    if 0 < j < |s| then s[j + 1..] else s
  }

  /** The pattern needs a non-blank first character and some blank: otherwise nothing is dropped. */
  lemma DropFirstTokenSpec(s: string)
    ensures s == [] || IsSpace(s[0]) || (forall j :: 0 <= j < |s| ==> !IsSpace(s[j])) ==> DropFirstToken(s) == s
    ensures forall k :: 0 < k < |s| && IsSpace(s[k]) && (forall j :: 0 <= j < k ==> !IsSpace(s[j])) ==> DropFirstToken(s) == s[k + 1..]
  {
    if s != [] && !IsSpace(s[0]) {
      forall k | 0 < k < |s| && IsSpace(s[k]) && (forall j :: 0 <= j < k ==> !IsSpace(s[j]))
        ensures DropFirstToken(s) == s[k + 1..]
      {
        FirstSpaceIs(s, k);
      }
      if forall j :: 0 <= j < |s| ==> !IsSpace(s[j]) {
        FirstSpaceIs(s, |s|);
      }
    }
  }

  /** `normalizeEventLabel`. */
  function NormalizeEventLabel(text: string): string {
    ToLower(Trim(DropFirstToken(text)))
  }

  /** A label with a blank at `k` after the non-blank run `s[..k]` normalises to the lower-cased rest. */
  lemma NormalizeAfter(s: string, k: nat, r: string)
    requires 0 < k < |s| - 1 && IsSpace(s[k])
    requires forall j :: 0 <= j < k ==> !IsSpace(s[j])
    requires !IsSpace(s[k + 1]) && !IsSpace(s[|s| - 1])
    requires ToLower(s[k + 1..]) == r
    ensures NormalizeEventLabel(s) == r
  {
    FirstSpaceIs(s, k);
    var t := s[k + 1..];
    assert DropFirstToken(s) == t;
    assert t[0] == s[k + 1] && t[|t| - 1] == s[|s| - 1];
    TrimUnchanged(t);
  }

  /** `EVENT_TYPES.find(type => type.value === value)`. */
  function FindByValue(types: seq<EventType>, value: string): Option<EventType> {
    if types == [] then None
    else if types[0].value == value then Some(types[0])
    else FindByValue(types[1..], value)
  }

  /** `getEventLabelByValue`. */
  function EventLabelByValue(value: string, language: Language): string {
    match FindByValue(EventTypes, value)
    case Some(t) => t.Label(language)
    case None => ""
  }

  /** `getEventOptionLabel`. */
  function EventOptionLabel(value: string, language: Language): string {
    match FindByValue(EventTypes, value)
    case Some(t) => t.emoji + " " + t.Label(language)
    case None => value
  }

  predicate Matches(t: EventType, normalized: string) {
    NormalizeEventLabel(t.en) == normalized || NormalizeEventLabel(t.ru) == normalized
  }

  /** The loop of `getEventKeyFromLabel`: the value of the first entry whose normalised label matches. */
  function FindByLabel(types: seq<EventType>, normalized: string): Option<string> {
    if types == [] then None
    else if Matches(types[0], normalized) then Some(types[0].value)
    else FindByLabel(types[1..], normalized)
  }

  /** `getEventKeyFromLabel`. */
  function EventKeyFromLabel(text: string): Option<string> {
    var normalized := NormalizeEventLabel(text);
    if normalized == "" then None else FindByLabel(EventTypes, normalized)
  }

  /** `find` by value returns the first entry with that value, and nothing when there is none. */
  lemma {:induction false} FindByValueSpec(types: seq<EventType>, value: string)
    ensures FindByValue(types, value).None? <==> forall j :: 0 <= j < |types| ==> types[j].value != value
    ensures FindByValue(types, value).Some? ==>
      exists k :: 0 <= k < |types| && FindByValue(types, value) == Some(types[k])
        && types[k].value == value && forall j :: 0 <= j < k ==> types[j].value != value
  {
    if types != [] {
      FindByValueSpec(types[1..], value);
      if types[0].value != value && FindByValue(types, value).Some? {
        var k :| 0 <= k < |types[1..]| && FindByValue(types[1..], value) == Some(types[1..][k])
          && types[1..][k].value == value && forall j :: 0 <= j < k ==> types[1..][j].value != value;
        assert FindByValue(types, value) == Some(types[k + 1]);
      }
    }
  }

  /** The search by label returns the value of the first matching entry. */
  lemma {:induction false} FindByLabelFirst(types: seq<EventType>, normalized: string, k: nat)
    requires k < |types| && Matches(types[k], normalized)
    requires forall j :: 0 <= j < k ==> !Matches(types[j], normalized)
    ensures FindByLabel(types, normalized) == Some(types[k].value)
    decreases k
  {
    if k > 0 {
      FindByLabelFirst(types[1..], normalized, k - 1);
    }
  }

  /** The search by label fails exactly when no entry matches. */
  lemma {:induction false} FindByLabelNone(types: seq<EventType>, normalized: string)
    ensures FindByLabel(types, normalized).None? <==> forall j :: 0 <= j < |types| ==> !Matches(types[j], normalized)
  {
    FirstMatchBefore(types, normalized);
    if FirstMatch(types, normalized) < |types| {
      FirstMatchFound(types, normalized);
    } else {
      FirstMatchMissing(types, normalized);
    }
  }

  /** A value is a key of the table exactly when the lookup by value finds an entry. */
  lemma KeysAreLookups(value: string)
    ensures value in EventTypeKeys <==> FindByValue(EventTypes, value).Some?
  {
    FindByValueSpec(EventTypes, value);
    if value in EventTypeKeys {
      var t :| t in EventTypes && t.value == value;
    } else {
      forall j | 0 <= j < |EventTypes| ensures EventTypes[j].value != value {
        assert EventTypes[j] in EventTypes;
      }
    }
  }

  /** The values of the table are pairwise distinct. */
  lemma ValuesDistinct()
    ensures forall i, j :: 0 <= i < j < |EventTypes| ==> EventTypes[i].value != EventTypes[j].value
  {
  }

  /** A table value gets its own label and option label; anything else gets "" and itself. */
  lemma LabelLookups(value: string, language: Language)
    ensures value !in EventTypeKeys ==> EventLabelByValue(value, language) == "" && EventOptionLabel(value, language) == value
    ensures forall k :: 0 <= k < |EventTypes| && EventTypes[k].value == value ==>
      && EventLabelByValue(value, language) == EventTypes[k].Label(language)
      && EventOptionLabel(value, language) == EventTypes[k].emoji + " " + EventTypes[k].Label(language)
  {
    FindByValueSpec(EventTypes, value);
    ValuesDistinct();
    if value !in EventTypeKeys {
      forall j | 0 <= j < |EventTypes| ensures EventTypes[j].value != value {
        assert EventTypes[j] in EventTypes;
      }
    }
  }

  /** The first entry with a given value is found by value. */
  lemma {:induction false} FindByValueFirst(types: seq<EventType>, value: string, k: nat)
    requires k < |types| && types[k].value == value
    requires forall j :: 0 <= j < k ==> types[j].value != value
    ensures FindByValue(types, value) == Some(types[k])
    decreases k
  {
    if k > 0 {
      FindByValueFirst(types[1..], value, k - 1);
    }
  }

  /**
   * The label of entry `k` leads back to its value, provided the values before
   * `k` differ from it and no earlier entry shares its normalised label.
   */
  lemma LabelRoundTrip(types: seq<EventType>, k: nat, language: Language)
    requires k < |types|
    requires forall j :: 0 <= j < k ==> types[j].value != types[k].value
    requires NormalizeEventLabel(types[k].Label(language)) != ""
    requires forall j :: 0 <= j < k ==> !Matches(types[j], NormalizeEventLabel(types[k].Label(language)))
    ensures FindByValue(types, types[k].value) == Some(types[k])
    ensures FindByLabel(types, NormalizeEventLabel(types[k].Label(language))) == Some(types[k].value)
  {
    FindByValueFirst(types, types[k].value, k);
    FindByLabelFirst(types, NormalizeEventLabel(types[k].Label(language)), k);
  }

  /** An entry is never found by a label that an earlier entry also matches, when the values before it differ from its own. */
  lemma ShadowedLabel(types: seq<EventType>, i: nat, k: nat, normalized: string)
    requires i < k < |types| && Matches(types[i], normalized)
    requires forall j :: 0 <= j < k ==> types[j].value != types[k].value
    ensures FindByLabel(types, normalized).Some? && FindByLabel(types, normalized) != Some(types[k].value)
  {
    FirstMatchBefore(types, normalized);
    FirstMatchFound(types, normalized);
  }

  /** The index of the first entry matching `normalized`, or `|types|`. */
  function FirstMatch(types: seq<EventType>, normalized: string): nat {
    if types == [] || Matches(types[0], normalized) then 0 else 1 + FirstMatch(types[1..], normalized)
  }

  lemma {:induction false} FirstMatchBefore(types: seq<EventType>, normalized: string)
    ensures FirstMatch(types, normalized) <= |types|
    ensures forall j :: 0 <= j < FirstMatch(types, normalized) ==> !Matches(types[j], normalized)
  {
    if types != [] && !Matches(types[0], normalized) {
      var rest := types[1..];
      FirstMatchBefore(rest, normalized);
      assert FirstMatch(types, normalized) == 1 + FirstMatch(rest, normalized);
      forall j | 1 <= j < FirstMatch(types, normalized) ensures !Matches(types[j], normalized) {
        assert types[j] == rest[j - 1];
      }
    }
  }

  lemma {:induction false} FirstMatchFound(types: seq<EventType>, normalized: string)
    requires FirstMatch(types, normalized) < |types|
    ensures Matches(types[FirstMatch(types, normalized)], normalized)
    ensures FindByLabel(types, normalized) == Some(types[FirstMatch(types, normalized)].value)
  {
    if !Matches(types[0], normalized) {
      FirstMatchFound(types[1..], normalized);
      assert types[FirstMatch(types, normalized)] == types[1..][FirstMatch(types[1..], normalized)];
    }
  }

  lemma {:induction false} FirstMatchMissing(types: seq<EventType>, normalized: string)
    requires FirstMatch(types, normalized) == |types|
    ensures FindByLabel(types, normalized).None?
  {
    if types != [] {
      FirstMatchMissing(types[1..], normalized);
    }
  }

  lemma ValentinesEn(s: string) requires s == "Valentine's Day" ensures NormalizeEventLabel(s) == "day" { NormalizeAfter(s, 11, "day"); }
  lemma WomensDayEn(s: string) requires s == "Women's Day" ensures NormalizeEventLabel(s) == "day" { NormalizeAfter(s, 7, "day"); }
  lemma MensDayEn(s: string) requires s == "Men's Day" ensures NormalizeEventLabel(s) == "day" { NormalizeAfter(s, 5, "day"); }

  /** The English labels of Valentine's Day, Women's Day and Men's Day all normalise to "day". */
  lemma EnglishDayLabels()
    ensures Matches(Valentines, "day") && Matches(WomensDay, "day") && Matches(MensDay, "day")
  {
    ValentinesEn(Valentines.en);
    WomensDayEn(WomensDay.en);
    MensDayEn(MensDay.en);
  }

  /** A label without any blank is only lower-cased: the pattern needs a blank to drop a token. */
  lemma NormalizeWord(s: string, r: string)
    requires s != [] && forall j :: 0 <= j < |s| ==> !IsSpace(s[j])
    requires ToLower(s) == r
    ensures NormalizeEventLabel(s) == r
  {
    FirstSpaceIs(s, |s|);
    assert DropFirstToken(s) == s;
    TrimUnchanged(s);
  }

  /** The normalised English labels of `EVENT_TYPES`, row by row. */
  const EnLabelKeys: seq<string> := [
    "birthday", "year", "christmas", "wedding", "anniversary", "day", "day", "day", "graduation", "shower", "other"
  ]

  /** The normalised Russian labels of `EVENT_TYPES`, row by row. */
  const RuLabelKeys: seq<string> := [
    "рождения", "год", "рождество", "свадьба", "годовщина", "святого валентина", "марта", "февраля", "выпускной",
    "ребенка", "другое"
  ]

  lemma BirthdayEn(s: string) requires s == "Birthday" ensures NormalizeEventLabel(s) == "birthday" { NormalizeWord(s, "birthday"); }
  lemma BirthdayRu(s: string) requires s == "День рождения" ensures NormalizeEventLabel(s) == "рождения" { NormalizeAfter(s, 4, "рождения"); }
  lemma NewYearEn(s: string) requires s == "New Year" ensures NormalizeEventLabel(s) == "year" { NormalizeAfter(s, 3, "year"); }
  lemma NewYearRu(s: string) requires s == "Новый год" ensures NormalizeEventLabel(s) == "год" { NormalizeAfter(s, 5, "год"); }
  lemma ChristmasEn(s: string) requires s == "Christmas" ensures NormalizeEventLabel(s) == "christmas" { NormalizeWord(s, "christmas"); }
  lemma ChristmasRu(s: string) requires s == "Рождество" ensures NormalizeEventLabel(s) == "рождество" { NormalizeWord(s, "рождество"); }
  lemma WeddingEn(s: string) requires s == "Wedding" ensures NormalizeEventLabel(s) == "wedding" { NormalizeWord(s, "wedding"); }
  lemma WeddingRu(s: string) requires s == "Свадьба" ensures NormalizeEventLabel(s) == "свадьба" { NormalizeWord(s, "свадьба"); }
  lemma AnniversaryEn(s: string) requires s == "Anniversary" ensures NormalizeEventLabel(s) == "anniversary" { NormalizeWord(s, "anniversary"); }
  lemma AnniversaryRu(s: string) requires s == "Годовщина" ensures NormalizeEventLabel(s) == "годовщина" { NormalizeWord(s, "годовщина"); }
  lemma ValentinesRuTail(t: string) requires t == "Святого Валентина" ensures ToLower(t) == "святого валентина" { }
  lemma ValentinesRu(s: string) requires s == "День Святого Валентина" ensures NormalizeEventLabel(s) == "святого валентина" {
    ValentinesRuTail(s[5..]);
    NormalizeAfter(s, 4, "святого валентина");
  }
  lemma WomensDayRu(s: string) requires s == "8 Марта" ensures NormalizeEventLabel(s) == "марта" { NormalizeAfter(s, 1, "марта"); }
  lemma MensDayRu(s: string) requires s == "23 Февраля" ensures NormalizeEventLabel(s) == "февраля" { NormalizeAfter(s, 2, "февраля"); }
  lemma GraduationEn(s: string) requires s == "Graduation" ensures NormalizeEventLabel(s) == "graduation" { NormalizeWord(s, "graduation"); }
  lemma GraduationRu(s: string) requires s == "Выпускной" ensures NormalizeEventLabel(s) == "выпускной" { NormalizeWord(s, "выпускной"); }
  lemma BabyShowerEn(s: string) requires s == "Baby Shower" ensures NormalizeEventLabel(s) == "shower" { NormalizeAfter(s, 4, "shower"); }
  lemma BabyShowerRu(s: string) requires s == "Рождение ребенка" ensures NormalizeEventLabel(s) == "ребенка" { NormalizeAfter(s, 8, "ребенка"); }
  lemma OtherEn(s: string) requires s == "Other" ensures NormalizeEventLabel(s) == "other" { NormalizeWord(s, "other"); }
  lemma OtherRu(s: string) requires s == "Другое" ensures NormalizeEventLabel(s) == "другое" { NormalizeWord(s, "другое"); }

  /** Row `j` of the table normalises to `EnLabelKeys[j]` and `RuLabelKeys[j]`. */
  lemma NormalizedLabels(j: nat)
    requires j < |EventTypes|
    ensures NormalizeEventLabel(EventTypes[j].en) == EnLabelKeys[j]
    ensures NormalizeEventLabel(EventTypes[j].ru) == RuLabelKeys[j]
  {
    if j == 0 { BirthdayEn(EventTypes[j].en); BirthdayRu(EventTypes[j].ru); }
    else if j == 1 { NewYearEn(EventTypes[j].en); NewYearRu(EventTypes[j].ru); }
    else if j == 2 { ChristmasEn(EventTypes[j].en); ChristmasRu(EventTypes[j].ru); }
    else if j == 3 { WeddingEn(EventTypes[j].en); WeddingRu(EventTypes[j].ru); }
    else if j == 4 { AnniversaryEn(EventTypes[j].en); AnniversaryRu(EventTypes[j].ru); }
    else if j == 5 { ValentinesEn(EventTypes[j].en); ValentinesRu(EventTypes[j].ru); }
    else if j == 6 { WomensDayEn(EventTypes[j].en); WomensDayRu(EventTypes[j].ru); }
    else if j == 7 { MensDayEn(EventTypes[j].en); MensDayRu(EventTypes[j].ru); }
    else if j == 8 { GraduationEn(EventTypes[j].en); GraduationRu(EventTypes[j].ru); }
    else if j == 9 { BabyShowerEn(EventTypes[j].en); BabyShowerRu(EventTypes[j].ru); }
    else { OtherEn(EventTypes[j].en); OtherRu(EventTypes[j].ru); }
  }

  /** Row `j` does not match a text that differs from both of its keys. */
  lemma NotMatchesRow(j: nat, n: string)
    requires j < |EventTypes| && EnLabelKeys[j] != n && RuLabelKeys[j] != n
    ensures !Matches(EventTypes[j], n)
  {
    NormalizedLabels(j);
  }

  /** Row `j` matches each of its keys. */
  lemma MatchesRow(j: nat, n: string)
    requires j < |EventTypes| && (EnLabelKeys[j] == n || RuLabelKeys[j] == n)
    ensures Matches(EventTypes[j], n)
  {
    NormalizedLabels(j);
  }

  /** The Russian keys are non-empty, pairwise distinct, and differ from every English key. */
  lemma RuLabelKeysDistinct()
    ensures forall i, j :: 0 <= i < j < |RuLabelKeys| ==> RuLabelKeys[i] != RuLabelKeys[j]
    ensures forall i, j :: 0 <= i < |EnLabelKeys| && 0 <= j < |RuLabelKeys| ==> EnLabelKeys[i] != RuLabelKeys[j]
    ensures forall j :: 0 <= j < |RuLabelKeys| ==> RuLabelKeys[j] != ""
  {
  }

  /** The row holding a key of the table. */
  lemma RowOf(v: string) returns (k: nat)
    requires v in EventTypeKeys
    ensures k < |EventTypes| && EventTypes[k].value == v
    ensures EventLabelByValue(v, Ru) == EventTypes[k].ru && EventLabelByValue(v, En) == EventTypes[k].en
  {
    var t :| t in EventTypes && t.value == v;
    k :| 0 <= k < |EventTypes| && EventTypes[k] == t;
    LabelLookups(v, Ru);
    LabelLookups(v, En);
  }

  /** The Russian label of every event type leads back to its key. */
  lemma RuRoundTrip(v: string)
    requires v in EventTypeKeys
    ensures EventKeyFromLabel(EventLabelByValue(v, Ru)) == Some(v)
  {
    var k := RowOf(v);
    NormalizedLabels(k);
    RuLabelKeysDistinct();
    ValuesDistinct();
    forall j | 0 <= j < k ensures !Matches(EventTypes[j], RuLabelKeys[k]) {
      NotMatchesRow(j, RuLabelKeys[k]);
    }
    LabelRoundTrip(EventTypes, k, Ru);
  }

  /** The English keys differ from every Russian one, and from each other except for the three "day" rows. */
  lemma EnLabelKeysDistinct()
    ensures forall i, j :: 0 <= i < j < |EnLabelKeys| && j != 6 && j != 7 ==> EnLabelKeys[i] != EnLabelKeys[j]
    ensures forall j :: 0 <= j < |EnLabelKeys| ==> EnLabelKeys[j] != ""
  {
  }

  /** The English label "day" is found at Valentine's Day, ahead of Women's Day and Men's Day. */
  lemma DayLabelFindsValentines(day: string)
    requires day == "day"
    ensures FindByLabel(EventTypes, day) == Some("valentines")
  {
    forall j | 0 <= j < 5 ensures !Matches(EventTypes[j], day) {
      NotMatchesRow(j, day);
    }
    MatchesRow(5, day);
    FindByLabelFirst(EventTypes, day, 5);
  }

  /** Every English label other than a shadowed "day" leads back to its own row. */
  lemma EnRoundTripAt(k: nat)
    requires k < |EventTypes| && k != 6 && k != 7
    ensures FindByLabel(EventTypes, NormalizeEventLabel(EventTypes[k].en)) == Some(EventTypes[k].value)
  {
    NormalizedLabels(k);
    EnLabelKeysDistinct();
    RuLabelKeysDistinct();
    ValuesDistinct();
    forall j | 0 <= j < k ensures !Matches(EventTypes[j], EnLabelKeys[k]) {
      NotMatchesRow(j, EnLabelKeys[k]);
    }
    LabelRoundTrip(EventTypes, k, En);
  }

  /** The English label of Women's Day or Men's Day finds Valentine's Day. */
  lemma EnShadowedAt(k: nat)
    requires k < |EventTypes| && EnLabelKeys[k] == "day"
    ensures FindByLabel(EventTypes, NormalizeEventLabel(EventTypes[k].en)) == Some("valentines")
  {
    NormalizedLabels(k);
    DayLabelFindsValentines(EnLabelKeys[k]);
  }

  /** The Women's Day and Men's Day rows are the ones labelled "day" after Valentine's Day. */
  lemma ShadowedRows(k: nat)
    requires k < |EventTypes|
    ensures EventTypes[k].value == "womens-day" || EventTypes[k].value == "mens-day" ==> EnLabelKeys[k] == "day"
    ensures EventTypes[k].value != "womens-day" && EventTypes[k].value != "mens-day" ==> k != 6 && k != 7
  {
    ValuesDistinct();
  }

  /** No English label normalises to the empty text. */
  lemma EnLabelNotEmpty(k: nat)
    requires k < |EventTypes|
    ensures NormalizeEventLabel(EventTypes[k].en) != ""
  {
    NormalizedLabels(k);
    EnLabelKeysDistinct();
  }

  /** The English round trip, row by row. */
  lemma EnRoundTripRow(k: nat)
    requires k < |EventTypes|
    ensures var r := FindByLabel(EventTypes, NormalizeEventLabel(EventTypes[k].en));
      && (r == Some(EventTypes[k].value) <==> EventTypes[k].value != "womens-day" && EventTypes[k].value != "mens-day")
      && (EventTypes[k].value == "womens-day" || EventTypes[k].value == "mens-day" ==> r == Some("valentines"))
  {
    ShadowedRows(k);
    if EventTypes[k].value == "womens-day" || EventTypes[k].value == "mens-day" {
      EnShadowedAt(k);
    } else {
      EnRoundTripAt(k);
    }
  }

  /**
   * The English label leads back to its key for every event type except
   * Women's Day and Men's Day, whose label "day" finds Valentine's Day first.
   */
  lemma EnRoundTrip(v: string)
    requires v in EventTypeKeys
    ensures EventKeyFromLabel(EventLabelByValue(v, En)) == Some(v) <==> v != "womens-day" && v != "mens-day"
    ensures v == "womens-day" || v == "mens-day" ==> EventKeyFromLabel(EventLabelByValue(v, En)) == Some("valentines")
  {
    var k := RowOf(v);
    EnLabelNotEmpty(k);
    EnRoundTripRow(k);
  }

  /** A label that normalises to "" never resolves. */
  lemma EmptyLabelHasNoKey(text: string)
    requires Trim(DropFirstToken(text)) == ""
    ensures EventKeyFromLabel(text).None?
  {
  }
}
