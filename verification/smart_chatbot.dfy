/** The chat assistant: a keyword rule table over the lower-cased message and the doctor
    list (`handleQuery`), and the chat window's state (`isOpen`, `messages`, `input`).
    Replies are tagged variants instead of the exact multi-line texts. */
module SmartChatbot {
  import opened Text
  import opened Seqs
  import opened Catalog

  const EmergencyWords: seq<string> := ["emergency", "urgent", "911"]
  const BookingWords: seq<string> := ["book", "appointment", "schedule"]
  const SymptomWords: seq<string> := ["symptom", "pain", "fever", "sick"]
  const HoursWords: seq<string> := ["hours", "open", "timing"]
  const PharmacyWords: seq<string> := ["pharmacy", "medicine", "drug"]
  const RatingWords: seq<string> := ["rating", "review", "best"]

  /** One entry of the `specialties` object: the key looked for in the query and in the
      records' specialty, and the description the reply quotes. */
  datatype SpecialtyEntry = SpecialtyEntry(key: string, description: string)

  /** The entries in the object's insertion order, which is the order `Object.entries`
      visits them. */
  const SpecialtyTable: seq<SpecialtyEntry> := [
    SpecialtyEntry("cardiologist", "heart and cardiovascular"),
    SpecialtyEntry("dermatologist", "skin conditions"),
    SpecialtyEntry("pediatrician", "children's health"),
    SpecialtyEntry("orthopedic", "bones and joints"),
    SpecialtyEntry("neurologist", "brain and nervous system"),
    SpecialtyEntry("psychiatrist", "mental health"),
    SpecialtyEntry("dentist", "dental and oral care"),
    SpecialtyEntry("ophthalmologist", "eye care"),
    SpecialtyEntry("gynecologist", "women's health")
  ]

  /** The keyword lists of the rules, in the order the rules are tried. */
  datatype RuleTable = RuleTable(
    emergency: seq<string>, booking: seq<string>, symptom: seq<string>, hours: seq<string>,
    specialties: seq<SpecialtyEntry>, pharmacy: seq<string>, rating: seq<string>)

  /** The assistant's rules. The properties below hold for any table; this is the one
      the assistant uses. */
  const Rules: RuleTable :=
    RuleTable(EmergencyWords, BookingWords, SymptomWords, HoursWords, SpecialtyTable, PharmacyWords, RatingWords)

  /** A specialty reply lists at most this many doctors (`matched.slice(0, 3)`). */
  const MaxListed: nat := 3

  /** What the assistant answers. `SpecialistsFound` carries the key, its description,
      the number of matching records and the records listed. */
  datatype Reply =
    | Emergency
    | Booking
    | SymptomGuide
    | Hours
    | SpecialistsFound(specialty: string, description: string, count: nat, top: seq<Doctor>)
    | NoSpecialists(specialty: string)
    | Pharmacies
    | TopRated
    | Help

  /** `words.some(w => query.includes(w))`, the `||` chain of one rule. */
  function MentionsAny(query: string, words: seq<string>): (r: bool)
    ensures r <==> exists k :: 0 <= k < |words| && Includes(query, words[k])
    decreases |words|
  {
    |words| > 0 && (Includes(query, words[0]) || MentionsAny(query, words[1..]))
  }

  /** The index of the first entry whose key the query contains, if any. */
  function FirstSpecialty(query: string, table: seq<SpecialtyEntry>): (r: Option<nat>)
    ensures r.Some? ==> r.value < |table| && Includes(query, table[r.value].key)
    ensures r.Some? ==> forall j :: 0 <= j < r.value ==> !Includes(query, table[j].key)
    ensures r.None? <==> forall j :: 0 <= j < |table| ==> !Includes(query, table[j].key)
    decreases |table|
  {
    if table == [] then None
    else if Includes(query, table[0].key) then Some(0)
    else match FirstSpecialty(query, table[1..])
      case None => None
      case Some(j) => Some(j + 1)
  }

  /** `d.specialty?.toLowerCase().includes(key)` */
  function SpecialtyMentions(key: string): Doctor -> bool {
    (d: Doctor) => FieldIncludes(d.specialty, key)
  }

  /** `doctorsData.filter(...)` for one key. */
  function Matching(doctors: seq<Doctor>, key: string): seq<Doctor> {
    Filter(doctors, SpecialtyMentions(key))
  }

  /** The reply once the entry `e` has been chosen. */
  function SpecialistReply(e: SpecialtyEntry, doctors: seq<Doctor>): Reply {
    var matched := Matching(doctors, e.key);
    if |matched| > 0 then
      SpecialistsFound(e.key, e.description, |matched|, matched[..if |matched| < MaxListed then |matched| else MaxListed])
    else
      NoSpecialists(e.key)
  }

  /** The rule table: the first rule that applies, in the order of `handleQuery`. */
  function Answer(rules: RuleTable, query: string, doctors: seq<Doctor>): Reply {
    if MentionsAny(query, rules.emergency) then Emergency
    else if MentionsAny(query, rules.booking) then Booking
    else if MentionsAny(query, rules.symptom) then SymptomGuide
    else if MentionsAny(query, rules.hours) then Hours
    else match FirstSpecialty(query, rules.specialties)
      case Some(i) => SpecialistReply(rules.specialties[i], doctors)
      case None =>
        if MentionsAny(query, rules.pharmacy) then Pharmacies
        else if MentionsAny(query, rules.rating) then TopRated
        else Help
  }

  /** `handleQuery(query)`: the four keyword rules, then the walk over the specialty
      table with an early return at the first key found, then the last two rules. */
  method HandleQuery(rules: RuleTable, query: string, doctors: seq<Doctor>) returns (r: Reply)
    ensures r == Answer(rules, query, doctors)
  {
    if MentionsAny(query, rules.emergency) { return Emergency; }
    if MentionsAny(query, rules.booking) { return Booking; }
    if MentionsAny(query, rules.symptom) { return SymptomGuide; }
    if MentionsAny(query, rules.hours) { return Hours; }
    for i := 0 to |rules.specialties|
      invariant forall j :: 0 <= j < i ==> !Includes(query, rules.specialties[j].key)
    {
      var entry := rules.specialties[i];
      if Includes(query, entry.key) {
        var matched := Filter(doctors, SpecialtyMentions(entry.key));
        if |matched| > 0 {
          var shown := if |matched| < MaxListed then |matched| else MaxListed;
          return SpecialistsFound(entry.key, entry.description, |matched|, matched[..shown]);
        } else {
          return NoSpecialists(entry.key);
        }
      }
    }
    if MentionsAny(query, rules.pharmacy) { return Pharmacies; }
    if MentionsAny(query, rules.rating) { return TopRated; }
    return Help;
  }

  // ---------------------------------------------------------------------------
  // Properties of the rule table.

  /** A query that contains an emergency word gets the emergency reply, whatever text
      surrounds the word. */
  lemma EmergencyPriority(rules: RuleTable, before: string, word: string, after: string, doctors: seq<Doctor>)
    requires word in rules.emergency
    ensures Answer(rules, before + word + after, doctors) == Emergency
  {
    var q := before + word + after;
    assert q[|before|..|before| + |word|] == word;
    OccursAtIncludes(q, word, |before|);
    var k :| 0 <= k < |rules.emergency| && rules.emergency[k] == word;
  }

  /** The four keyword rules come first, in a fixed order: each of their replies is given
      exactly when its rule applies and no earlier one does. */
  lemma KeywordRulesFirst(rules: RuleTable, query: string, doctors: seq<Doctor>)
    ensures var r := Answer(rules, query, doctors);
      var e, b := MentionsAny(query, rules.emergency), MentionsAny(query, rules.booking);
      var s, h := MentionsAny(query, rules.symptom), MentionsAny(query, rules.hours);
      && (r.Emergency? <==> e)
      && (r.Booking? <==> !e && b)
      && (r.SymptomGuide? <==> !e && !b && s)
      && (r.Hours? <==> !e && !b && !s && h)
  {
  }

  /** After the keyword rules come the specialty table, then pharmacy, then rating, then
      the default: each reply is given exactly when its rule applies and no earlier one
      does. A query matching no keyword and no key gets the default help. */
  lemma LaterRules(rules: RuleTable, query: string, doctors: seq<Doctor>)
    requires !MentionsAny(query, rules.emergency) && !MentionsAny(query, rules.booking)
    requires !MentionsAny(query, rules.symptom) && !MentionsAny(query, rules.hours)
    ensures var r := Answer(rules, query, doctors);
      var key := exists j :: 0 <= j < |rules.specialties| && Includes(query, rules.specialties[j].key);
      var p, t := MentionsAny(query, rules.pharmacy), MentionsAny(query, rules.rating);
      && (r.SpecialistsFound? || r.NoSpecialists? <==> key)
      && (r.Pharmacies? <==> !key && p)
      && (r.TopRated? <==> !key && !p && t)
      && (r.Help? <==> !key && !p && !t)
  {
  }

  /** The first key in table order that the query contains is the one found, whichever
      later keys it also contains. */
  lemma {:induction false} FirstSpecialtyAt(query: string, table: seq<SpecialtyEntry>, i: nat)
    requires i < |table| && Includes(query, table[i].key)
    requires forall j :: 0 <= j < i ==> !Includes(query, table[j].key)
    ensures FirstSpecialty(query, table) == Some(i)
    decreases i
  {
    if i > 0 {
      FirstSpecialtyAt(query, table[1..], i - 1);
    }
  }

  /** Among the specialty keys, the first one in table order that the query contains
      decides the reply. */
  lemma FirstKeyWins(rules: RuleTable, query: string, doctors: seq<Doctor>, i: nat)
    requires i < |rules.specialties| && Includes(query, rules.specialties[i].key)
    requires forall j :: 0 <= j < i ==> !Includes(query, rules.specialties[j].key)
    requires !MentionsAny(query, rules.emergency) && !MentionsAny(query, rules.booking)
    requires !MentionsAny(query, rules.symptom) && !MentionsAny(query, rules.hours)
    ensures Answer(rules, query, doctors) == SpecialistReply(rules.specialties[i], doctors)
  {
    FirstSpecialtyAt(query, rules.specialties, i);
  }

  /** A specialty reply counts every record whose lower-cased specialty contains the
      key, and lists the first of them (at most three) in catalog order. */
  lemma SpecialistResults(rules: RuleTable, query: string, doctors: seq<Doctor>)
    requires Answer(rules, query, doctors).SpecialistsFound?
    ensures var r := Answer(rules, query, doctors);
      && SpecialtyEntry(r.specialty, r.description) in rules.specialties
      && Includes(query, r.specialty)
      && r.count == Count(doctors, SpecialtyMentions(r.specialty)) > 0
      && |r.top| == (if r.count < MaxListed then r.count else MaxListed)
      && r.top == Matching(doctors, r.specialty)[..|r.top|]
      && IsSubsequence(r.top, doctors)
      && forall k :: 0 <= k < |r.top| ==> FieldIncludes(r.top[k].specialty, r.specialty)
  {
    var r := Answer(rules, query, doctors);
    var e := rules.specialties[FirstSpecialty(query, rules.specialties).value];
    assert r == SpecialistReply(e, doctors);
    var m := Matching(doctors, e.key);
    FilterCount(doctors, SpecialtyMentions(e.key));
    FilterIsSubsequence(doctors, SpecialtyMentions(e.key));
    PrefixIsSubsequence(m, |r.top|);
    SubsequenceTransitive(r.top, m, doctors);
  }

  /** The "none found" reply is given exactly when the chosen key matches no record;
      the pharmacy and rating rules are then not reached. */
  lemma NoSpecialistsIff(rules: RuleTable, query: string, doctors: seq<Doctor>, i: nat)
    requires i < |rules.specialties| && Includes(query, rules.specialties[i].key)
    requires forall j :: 0 <= j < i ==> !Includes(query, rules.specialties[j].key)
    requires !MentionsAny(query, rules.emergency) && !MentionsAny(query, rules.booking)
    requires !MentionsAny(query, rules.symptom) && !MentionsAny(query, rules.hours)
    ensures Answer(rules, query, doctors) == NoSpecialists(rules.specialties[i].key)
        <==> forall k :: 0 <= k < |doctors| ==> !FieldIncludes(doctors[k].specialty, rules.specialties[i].key)
    ensures !Answer(rules, query, doctors).Pharmacies? && !Answer(rules, query, doctors).TopRated?
  {
    var key := rules.specialties[i].key;
    var p := SpecialtyMentions(key);
    FirstKeyWins(rules, query, doctors, i);
    var m := Matching(doctors, key);
    if |m| > 0 {
      FilterMembers(doctors, p, m[0]);
      var k :| 0 <= k < |doctors| && doctors[k] == m[0];
      assert p(doctors[k]);
    } else {
      forall k | 0 <= k < |doctors| ensures !FieldIncludes(doctors[k].specialty, key) {
        FilterMembers(doctors, p, doctors[k]);
      }
    }
  }

  // ---------------------------------------------------------------------------
  // The chat window.

  /** An entry of the conversation: the opening greeting, a user line, or a bot reply. */
  datatype Message = Greeting | FromUser(text: string) | FromBot(reply: Reply)

  class Chat {
    var isOpen: bool
    var messages: seq<Message>
    var input: string

    /** Closed, with the greeting as the only message and an empty input box. */
    constructor ()
      ensures !isOpen && messages == [Greeting] && input == []
    {
      isOpen := false;
      messages := [Greeting];
      input := [];
    }

    /** `toggleChat` */
    method ToggleChat()
      modifies this`isOpen
      ensures isOpen == !old(isOpen)
    {
      isOpen := !isOpen;
    }

    /** The input box's `onChange`. */
    method SetInput(text: string)
      modifies this`input
      ensures input == text
    {
      input := text;
    }

    /** `sendMessage`: a blank input (empty after `trim`) changes nothing; otherwise the
        trimmed text is appended as the user's line, the input is cleared, and the reply
        to the lower-cased trimmed text is appended after it. */
    method SendMessage(doctors: seq<Doctor>)
      modifies this`messages, this`input
      ensures Trim(old(input)) == [] ==> messages == old(messages) && input == old(input)
      ensures Trim(old(input)) != [] ==>
        && input == []
        && messages == old(messages) + [FromUser(Trim(old(input))),
                                        FromBot(Answer(Rules, Lower(Trim(old(input))), doctors))]
    {
      if Trim(input) == [] {
        return;
      }
      var userMsg := Trim(input);
      messages := messages + [FromUser(userMsg)];
      input := [];
      var response := HandleQuery(Rules, Lower(userMsg), doctors);
      messages := messages + [FromBot(response)];
    }

    /** A quick-action button: its query text is appended as the user's line as it is,
        and the reply to its lower-cased text after it; the input box is untouched. */
    method QuickAction(query: string, doctors: seq<Doctor>)
      modifies this`messages
      ensures messages == old(messages) + [FromUser(query), FromBot(Answer(Rules, Lower(query), doctors))]
    {
      messages := messages + [FromUser(query)];
      var response := HandleQuery(Rules, Lower(query), doctors);
      messages := messages + [FromBot(response)];
    }
  }

  /** The line a send appends is never blank and has no white space at either end, so
      trimming it again changes nothing. */
  lemma SentLineIsTrimmed(input: string)
    requires Trim(input) != []
    ensures var line := Trim(input);
      && !IsWhiteSpace(line[0]) && !IsWhiteSpace(line[|line| - 1])
      && Trim(line) == line
  {
    TrimIsSlice(input);
    TrimIdempotent(input);
  }
}
