/** Filter rules compiled into a configuration and evaluated as a chain, against the rule list read directly. */
module RuleFilter {
  import opened Text
  import opened Wrappers

  /** Lower-casing and regular expressions; nothing is assumed of them. */
  datatype Lib = Lib(
    lower: string -> string,
    escape: string -> string,
    compiles: string -> bool,
    search: (string, bool, string) -> bool)

  datatype Kind =
    | SystemDomain | SystemAddress | AddressHint | SubjectPattern | ServiceTagExact | ServiceTagPrefix
    | PlatformTagHint | ApiAllowedPattern | CustomerBodyPattern | SpamSubjectPattern | SpamBodyPattern

  datatype Rule = Rule(kind: Kind, value: string, isRegex: bool, via: Option<string>, brand: Option<int>,
      isActive: bool)

  /** A missing text field is the empty string. */
  datatype Ticket = Ticket(
    subject: string, rawSubject: string, description: string, tags: seq<string>, channel: string, address: string,
        name: string)

  datatype ScopedPattern = ScopedPattern(pattern: string, dotAll: bool, via: Option<string>)

  datatype Config = Config(
    systemDomains: set<string>,
    systemAddresses: set<string>,
    addressHints: set<string>,
    subjectPatterns: seq<ScopedPattern>,
    serviceTagsExact: set<string>,
    serviceTagPrefixes: seq<string>,
    platformTagHints: set<string>,
    apiAllowedPatterns: seq<ScopedPattern>,
    customerBodyPatterns: seq<ScopedPattern>,
    spamSubjectPatterns: seq<ScopedPattern>,
    spamBodyPatterns: seq<ScopedPattern>)

  const NO_RULES: Config := Config({}, {}, {}, [], {}, [], {}, [], [], [], [])

  /* ---------- Compiling ---------- */

  predicate IsPatternKind(kind: Kind) {
    kind in {SubjectPattern, ApiAllowedPattern, CustomerBodyPattern, SpamSubjectPattern, SpamBodyPattern}
  }

  /** Inactive rules and rules with a blank value are ignored. */
  predicate IsLive(lib: Lib, rule: Rule) {
    rule.isActive && Strip(rule.value) != ""
  }

  function Word(lib: Lib, rule: Rule): string {
    var value := Strip(rule.value);
    if rule.isRegex then value else lib.lower(value)
  }

  function Via(lib: Lib, rule: Rule): Option<string> {
    if rule.via.None? || lib.lower(Strip(rule.via.value)) == "" then None
    else Some(lib.lower(Strip(rule.via.value)))
  }

  /** Body patterns let a dot match a line break. */
  function Pattern(lib: Lib, rule: Rule): ScopedPattern {
    var value := Strip(rule.value);
    var pattern := if rule.isRegex then value else lib.escape(value);
    ScopedPattern(pattern, rule.kind in {CustomerBodyPattern, SpamBodyPattern}, Via(lib, rule))
  }

  predicate Compilable(lib: Lib, rule: Rule) {
    IsLive(lib, rule) && IsPatternKind(rule.kind) ==> lib.compiles(Pattern(lib, rule).pattern)
  }

  function Add<T(==)>(s: seq<T>, x: T): seq<T> {
    if x in s then s else s + [x]
  }

  function AddRule(lib: Lib, c: Config, rule: Rule): Config {
    match rule.kind
    case SystemDomain => c.(systemDomains := c.systemDomains + {Word(lib, rule)})
    case SystemAddress => c.(systemAddresses := c.systemAddresses + {Word(lib, rule)})
    case AddressHint => c.(addressHints := c.addressHints + {Word(lib, rule)})
    case SubjectPattern => c.(subjectPatterns := Add(c.subjectPatterns, Pattern(lib, rule)))
    case ServiceTagExact => c.(serviceTagsExact := c.serviceTagsExact + {Word(lib, rule)})
    case ServiceTagPrefix => c.(serviceTagPrefixes := Add(c.serviceTagPrefixes, Word(lib, rule)))
    case PlatformTagHint => c.(platformTagHints := c.platformTagHints + {Word(lib, rule)})
    case ApiAllowedPattern => c.(apiAllowedPatterns := Add(c.apiAllowedPatterns, Pattern(lib, rule)))
    case CustomerBodyPattern => c.(customerBodyPatterns := Add(c.customerBodyPatterns, Pattern(lib, rule)))
    case SpamSubjectPattern => c.(spamSubjectPatterns := Add(c.spamSubjectPatterns, Pattern(lib, rule)))
    case SpamBodyPattern => c.(spamBodyPatterns := Add(c.spamBodyPatterns, Pattern(lib, rule)))
  }

  /** The configuration after the remaining rules; compiling a bad pattern raises. */
  function Compiled(lib: Lib, c: Config, rules: seq<Rule>): Option<Config>
    decreases |rules|
  {
    if rules == [] then Some(c)
    else if !IsLive(lib, rules[0]) then Compiled(lib, c, rules[1..])
    else if !Compilable(lib, rules[0]) then None
    else Compiled(lib, AddRule(lib, c, rules[0]), rules[1..])
  }

  function FromRules(lib: Lib, rules: seq<Rule>): Option<Config> {
    Compiled(lib, NO_RULES, rules)
  }

  /** A dictionary of compiled patterns keyed by pattern and channel, in insertion order. */
  predicate HasKey(patterns: seq<ScopedPattern>, p: ScopedPattern) {
    exists k :: 0 <= k < |patterns| && patterns[k].pattern == p.pattern && patterns[k].via == p.via
  }

  method AddPattern(lib: Lib, patterns: seq<ScopedPattern>, p: ScopedPattern) returns (r: Option<seq<ScopedPattern>>)
    requires forall k :: 0 <= k < |patterns| ==> patterns[k].dotAll == p.dotAll && lib.compiles(patterns[k].pattern)
    ensures r == if lib.compiles(p.pattern) then Some(Add(patterns, p)) else None
  {
    if HasKey(patterns, p) {
      return Some(patterns);
    }
    if !lib.compiles(p.pattern) {
      return None;
    }
    return Some(patterns + [p]);
  }

  ghost predicate AllCompiled(lib: Lib, patterns: seq<ScopedPattern>, dotAll: bool) {
    forall k :: 0 <= k < |patterns| ==> patterns[k].dotAll == dotAll && lib.compiles(patterns[k].pattern)
  }

  ghost predicate ListsCompiled(lib: Lib, c: Config) {
    && AllCompiled(lib, c.subjectPatterns, false) && AllCompiled(lib, c.apiAllowedPatterns, false)
    && AllCompiled(lib, c.spamSubjectPatterns, false)
    && AllCompiled(lib, c.customerBodyPatterns, true) && AllCompiled(lib, c.spamBodyPatterns, true)
  }

  /** Sorts the rules into the collections of a configuration, one kind each. */
  method ProcessRules(lib: Lib, rules: seq<Rule>) returns (config: Option<Config>)
    ensures config == FromRules(lib, rules)
  {
    var c := NO_RULES;
    var i := 0;
    while i < |rules|
      invariant 0 <= i <= |rules| && ListsCompiled(lib, c)
      invariant FromRules(lib, rules) == Compiled(lib, c, rules[i..])
    {
      var rule := rules[i];
      assert rules[i..][0] == rule && rules[i..][1..] == rules[i + 1..];
      i := i + 1;
      if !rule.isActive || Strip(rule.value) == "" {
        continue;
      }
      match rule.kind
      case SystemDomain => c := c.(systemDomains := c.systemDomains + {Word(lib, rule)});
      case SystemAddress => c := c.(systemAddresses := c.systemAddresses + {Word(lib, rule)});
      case AddressHint => c := c.(addressHints := c.addressHints + {Word(lib, rule)});
      case SubjectPattern =>
        var added := AddPattern(lib, c.subjectPatterns, Pattern(lib, rule));
        if added.None? {
          return None;
        }
        c := c.(subjectPatterns := added.value);
      case ServiceTagExact => c := c.(serviceTagsExact := c.serviceTagsExact + {Word(lib, rule)});
      case ServiceTagPrefix =>
        if Word(lib, rule) !in c.serviceTagPrefixes {
          c := c.(serviceTagPrefixes := c.serviceTagPrefixes + [Word(lib, rule)]);
        }
      case PlatformTagHint => c := c.(platformTagHints := c.platformTagHints + {Word(lib, rule)});
      case ApiAllowedPattern =>
        var added := AddPattern(lib, c.apiAllowedPatterns, Pattern(lib, rule));
        if added.None? {
          return None;
        }
        c := c.(apiAllowedPatterns := added.value);
      case CustomerBodyPattern =>
        var added := AddPattern(lib, c.customerBodyPatterns, Pattern(lib, rule));
        if added.None? {
          return None;
        }
        c := c.(customerBodyPatterns := added.value);
      case SpamSubjectPattern =>
        var added := AddPattern(lib, c.spamSubjectPatterns, Pattern(lib, rule));
        if added.None? {
          return None;
        }
        c := c.(spamSubjectPatterns := added.value);
      case SpamBodyPattern =>
        var added := AddPattern(lib, c.spamBodyPatterns, Pattern(lib, rule));
        if added.None? {
          return None;
        }
        c := c.(spamBodyPatterns := added.value);
    }
    assert rules[i..] == [];
    config := Some(c);
  }

  /* ---------- Evaluating a configuration ---------- */

  predicate StartsWith(s: string, prefix: string) {
    prefix <= s
  }

  predicate Contains(s: string, part: string) {
    exists i :: 0 <= i <= |s| && part <= s[i..]
  }

  function EmailDomain(email: string): string {
    if '@' in email then AfterFirst(email, '@') else ""
  }

  function Subject(lib: Lib, t: Ticket): string {
    Strip(if t.subject != "" then t.subject else t.rawSubject)
  }

  function Channel(lib: Lib, t: Ticket): string {
    lib.lower(Strip(t.channel))
  }

  function SenderEmail(lib: Lib, t: Ticket): string {
    lib.lower(Strip(t.address))
  }

  function SenderName(lib: Lib, t: Ticket): string {
    Strip(t.name)
  }

  predicate Applies(lib: Lib, p: ScopedPattern, t: Ticket) {
    p.via.None? || Channel(lib, t) == p.via.value
  }

  predicate Matches(lib: Lib, p: ScopedPattern, t: Ticket, text: string) {
    Applies(lib, p, t) && lib.search(p.pattern, p.dotAll, text)
  }

  /** The first pattern that applies and matches. */
  function FirstMatch(lib: Lib, patterns: seq<ScopedPattern>, t: Ticket, text: string): Option<ScopedPattern> {
    if patterns == [] then None
    else if Matches(lib, patterns[0], t, text) then Some(patterns[0])
    else FirstMatch(lib, patterns[1..], t, text)
  }

  datatype RuleName =
    | ApiException | CustomerBodyException | SenderStrict | SubjectRule | TagService | SpamSubject | SpamBody

  datatype Decision = Decision(isService: bool, rule: Option<RuleName>, detail: string)

  predicate IsPersonal(domain: string) {
    EndsWith(domain, "gmail.com") || EndsWith(domain, "googlemail.com") || EndsWith(domain, "outlook.com")
    || EndsWith(domain, "yahoo.com") || EndsWith(domain, "hotmail.com")
  }

  /** A sender name that gives away an automated message. */
  predicate AutomatedName(lib: Lib, t: Ticket) {
    SenderName(lib, t) != ""
    && (Contains(lib.lower(SenderName(lib, t)), "do not reply") ||
        Contains(lib.lower(SenderName(lib, t)), "notification"))
  }

  function RuleSender(lib: Lib, c: Config, t: Ticket): Option<string> {
    var email := SenderEmail(lib, t);
    if email == "" then None
    else if email in c.systemAddresses then Some("sender_strict.system_address: " + email)
    else if EmailDomain(email) in c.systemDomains then Some("sender_strict.system_domain: " + EmailDomain(email))
    else if exists hint :: hint in c.addressHints && Contains(lib.lower(email), hint) then
      Some("sender_strict.address_hint")
    else if AutomatedName(lib, t) then Some("sender_strict.sender_name: " + SenderName(lib, t))
    else None
  }

  function RulePattern(lib: Lib, patterns: seq<ScopedPattern>, t: Ticket, text: string,
        prefix: string): Option<string> {
    if text == "" then None
    else
      var p := FirstMatch(lib, patterns, t, text);
      if p.None? then None else Some(prefix + p.value.pattern)
  }

  predicate HasAnyPrefix(lib: Lib, tags: seq<string>, prefixes: seq<string>) {
    exists i, k :: 0 <= i < |tags| && 0 <= k < |prefixes| && StartsWith(lib.lower(tags[i]), prefixes[k])
  }

  function RuleTags(lib: Lib, c: Config, t: Ticket): Option<string> {
    if exists i :: 0 <= i < |t.tags| && lib.lower(t.tags[i]) in c.serviceTagsExact then Some("tags_service.tag")
    else if HasAnyPrefix(lib, t.tags, c.serviceTagPrefixes) then Some("tags_service.tag_prefix")
    else None
  }

  function RuleSpamSubject(lib: Lib, c: Config, t: Ticket): Option<string> {
    if SenderEmail(lib, t) == "" || !IsPersonal(EmailDomain(SenderEmail(lib, t))) then None
    else RulePattern(lib, c.spamSubjectPatterns, t, lib.lower(Subject(lib, t)), "spam_marketing.pattern: ")
  }

  function Service(rule: RuleName, reason: Option<string>, otherwise: Decision): Decision {
    if reason.Some? then Decision(true, Some(rule), reason.value) else otherwise
  }

  /** Exceptions first, then the chain in its order; a ticket no rule decides is a customer's. */
  function ClassifyTicket(lib: Lib, c: Config, t: Ticket): Decision {
    var api := RulePattern(lib, c.apiAllowedPatterns, t, Subject(lib, t), "api_exceptions.pattern: ");
    if api.Some? then Decision(false, Some(ApiException), api.value)
    else
      var body := Strip(t.description);
      var customer := RulePattern(lib, c.customerBodyPatterns, t, body, "customer_body.pattern: ");
      if customer.Some? then Decision(false, Some(CustomerBodyException), customer.value)
      else
        Service(SenderStrict, RuleSender(lib, c, t),
        Service(SubjectRule, RulePattern(lib, c.subjectPatterns, t, lib.lower(Subject(lib, t)),
            "rule_subject.pattern: "),
        Service(TagService, RuleTags(lib, c, t),
        Service(SpamSubject, RuleSpamSubject(lib, c, t),
        Service(SpamBody, RulePattern(lib, c.spamBodyPatterns, t, body, "spam_body.pattern: "),
        Decision(false, None, ""))))))
  }

  /* ---------- The rule list read directly ---------- */

  /** The rule, taken on its own, speaks about this ticket. */
  predicate Hits(lib: Lib, rule: Rule, t: Ticket) {
    IsLive(lib, rule) &&
    var email := SenderEmail(lib, t);
    match rule.kind
    case SystemAddress => email != "" && email == Word(lib, rule)
    case SystemDomain => email != "" && EmailDomain(email) == Word(lib, rule)
    case AddressHint => email != "" && Contains(lib.lower(email), Word(lib, rule))
    case SubjectPattern =>
      lib.lower(Subject(lib, t)) != "" && Matches(lib, Pattern(lib, rule), t, lib.lower(Subject(lib, t)))
    case ServiceTagExact => exists i :: 0 <= i < |t.tags| && lib.lower(t.tags[i]) == Word(lib, rule)
    case ServiceTagPrefix => exists i :: 0 <= i < |t.tags| && StartsWith(lib.lower(t.tags[i]), Word(lib, rule))
    case PlatformTagHint => false
    case ApiAllowedPattern => Subject(lib, t) != "" && Matches(lib, Pattern(lib, rule), t, Subject(lib, t))
    case CustomerBodyPattern =>
      Strip(t.description) != "" && Matches(lib, Pattern(lib, rule), t, Strip(t.description))
    case SpamSubjectPattern =>
      email != "" && IsPersonal(EmailDomain(email))
      && lib.lower(Subject(lib, t)) != "" && Matches(lib, Pattern(lib, rule), t, lib.lower(Subject(lib, t)))
    case SpamBodyPattern =>
      Strip(t.description) != "" && Matches(lib, Pattern(lib, rule), t, Strip(t.description))
  }

  predicate AnyHits(lib: Lib, rules: seq<Rule>, t: Ticket, kind: Kind) {
    exists k :: 0 <= k < |rules| && rules[k].kind == kind && Hits(lib, rules[k], t)
  }

  predicate SenderHits(lib: Lib, rules: seq<Rule>, t: Ticket) {
    || AnyHits(lib, rules, t, SystemAddress) || AnyHits(lib, rules, t, SystemDomain)
    || AnyHits(lib, rules, t, AddressHint) || (SenderEmail(lib, t) != "" && AutomatedName(lib, t))
  }

  datatype Verdict = Verdict(isService: bool, rule: Option<RuleName>)

  /** What the rules say of a ticket, in their documented order of precedence. */
  function Interpret(lib: Lib, rules: seq<Rule>, t: Ticket): Verdict {
    if AnyHits(lib, rules, t, ApiAllowedPattern) then Verdict(false, Some(ApiException))
    else if AnyHits(lib, rules, t, CustomerBodyPattern) then Verdict(false, Some(CustomerBodyException))
    else if SenderHits(lib, rules, t) then Verdict(true, Some(SenderStrict))
    else if AnyHits(lib, rules, t, SubjectPattern) then Verdict(true, Some(SubjectRule))
    else if AnyHits(lib, rules, t, ServiceTagExact) || AnyHits(lib, rules, t, ServiceTagPrefix) then
      Verdict(true, Some(TagService))
    else if AnyHits(lib, rules, t, SpamSubjectPattern) then Verdict(true, Some(SpamSubject))
    else if AnyHits(lib, rules, t, SpamBodyPattern) then Verdict(true, Some(SpamBody))
    else Verdict(false, None)
  }

  /* ---------- The compiled configuration holds exactly the live rules ---------- */

  function WordsOf(c: Config, kind: Kind): set<string> {
    match kind
    case SystemDomain => c.systemDomains
    case SystemAddress => c.systemAddresses
    case AddressHint => c.addressHints
    case ServiceTagExact => c.serviceTagsExact
    case ServiceTagPrefix => set k | 0 <= k < |c.serviceTagPrefixes| :: c.serviceTagPrefixes[k]
    case _ => {}
  }

  function PatternsOf(c: Config, kind: Kind): seq<ScopedPattern> {
    match kind
    case SubjectPattern => c.subjectPatterns
    case ApiAllowedPattern => c.apiAllowedPatterns
    case CustomerBodyPattern => c.customerBodyPatterns
    case SpamSubjectPattern => c.spamSubjectPatterns
    case SpamBodyPattern => c.spamBodyPatterns
    case _ => []
  }

  ghost predicate GivesWord(lib: Lib, rule: Rule, kind: Kind, word: string) {
    IsLive(lib, rule) && rule.kind == kind && Word(lib, rule) == word
  }

  ghost predicate GivesPattern(lib: Lib, rule: Rule, kind: Kind, p: ScopedPattern) {
    IsLive(lib, rule) && rule.kind == kind && Pattern(lib, rule) == p
  }

  ghost predicate GivesMatch(lib: Lib, rule: Rule, kind: Kind, t: Ticket, text: string) {
    IsLive(lib, rule) && rule.kind == kind && Matches(lib, Pattern(lib, rule), t, text)
  }

  predicate IsWordKind(kind: Kind) {
    !IsPatternKind(kind) && kind != PlatformTagHint
  }

  lemma AddRuleWords(lib: Lib, c: Config, rule: Rule, kind: Kind, word: string)
    requires IsWordKind(kind)
    ensures word in WordsOf(AddRule(lib, c, rule), kind) <==>
          word in WordsOf(c, kind) || (rule.kind == kind && Word(lib, rule) == word)
  {
    if rule.kind == kind == ServiceTagPrefix {
      var after := Add(c.serviceTagPrefixes, Word(lib, rule));
      assert word in after <==> word in c.serviceTagPrefixes || word == Word(lib, rule);
    }
  }

  lemma AddRulePatterns(lib: Lib, c: Config, rule: Rule, kind: Kind, p: ScopedPattern)
    requires IsPatternKind(kind)
    ensures p in PatternsOf(AddRule(lib, c, rule), kind) <==>
          p in PatternsOf(c, kind) || (rule.kind == kind && Pattern(lib, rule) == p)
  {
  }

  lemma {:induction false} CompiledWords(lib: Lib, c: Config, rules: seq<Rule>, kind: Kind, word: string)
    requires IsWordKind(kind) && Compiled(lib, c, rules).Some?
    ensures word in WordsOf(Compiled(lib, c, rules).value, kind)
       <==> word in WordsOf(c, kind) || exists k :: 0 <= k < |rules| && GivesWord(lib, rules[k], kind, word)
    decreases |rules|
  {
    if rules != [] {
      var next := if IsLive(lib, rules[0]) then AddRule(lib, c, rules[0]) else c;
      CompiledWords(lib, next, rules[1..], kind, word);
      AddRuleWords(lib, c, rules[0], kind, word);
      assert forall k :: 0 < k < |rules| ==> rules[k] == rules[1..][k - 1];
      assert forall k :: 0 <= k < |rules| - 1 ==> rules[1..][k] == rules[k + 1];
    }
  }

  lemma {:induction false} CompiledPatterns(lib: Lib, c: Config, rules: seq<Rule>, kind: Kind, p: ScopedPattern)
    requires IsPatternKind(kind) && Compiled(lib, c, rules).Some?
    ensures p in PatternsOf(Compiled(lib, c, rules).value, kind)
       <==> p in PatternsOf(c, kind) || exists k :: 0 <= k < |rules| && GivesPattern(lib, rules[k], kind, p)
    decreases |rules|
  {
    if rules != [] {
      var next := if IsLive(lib, rules[0]) then AddRule(lib, c, rules[0]) else c;
      CompiledPatterns(lib, next, rules[1..], kind, p);
      AddRulePatterns(lib, c, rules[0], kind, p);
      assert forall k :: 0 < k < |rules| ==> rules[k] == rules[1..][k - 1];
      assert forall k :: 0 <= k < |rules| - 1 ==> rules[1..][k] == rules[k + 1];
    }
  }

  /** Compiling fails exactly when some live pattern rule has a pattern that does not compile. */
  lemma {:induction false} CompiledIff(lib: Lib, c: Config, rules: seq<Rule>)
    ensures Compiled(lib, c, rules).Some? <==> forall k :: 0 <= k < |rules| ==> Compilable(lib, rules[k])
    decreases |rules|
  {
    if rules != [] {
      var next := if IsLive(lib, rules[0]) then AddRule(lib, c, rules[0]) else c;
      CompiledIff(lib, next, rules[1..]);
      assert forall k :: 0 < k < |rules| ==> rules[k] == rules[1..][k - 1];
      assert forall k :: 0 <= k < |rules| - 1 ==> rules[1..][k] == rules[k + 1];
    }
  }

  lemma {:induction false} FirstMatchExists(lib: Lib, patterns: seq<ScopedPattern>, t: Ticket, text: string)
    ensures FirstMatch(lib, patterns, t, text).Some? <==> exists p :: p in patterns && Matches(lib, p, t, text)
  {
    if patterns != [] {
      FirstMatchExists(lib, patterns[1..], t, text);
      assert forall p :: p in patterns <==> p == patterns[0] || p in patterns[1..];
    }
  }

  /** A pattern list of the configuration fires exactly when some rule of its kind does. */
  lemma PatternFires(lib: Lib, rules: seq<Rule>, c: Config, t: Ticket, kind: Kind, text: string)
    requires FromRules(lib, rules) == Some(c) && IsPatternKind(kind)
    ensures FirstMatch(lib, PatternsOf(c, kind), t, text).Some?
       <==> exists k :: 0 <= k < |rules| && GivesMatch(lib, rules[k], kind, t, text)
  {
    FirstMatchExists(lib, PatternsOf(c, kind), t, text);
    if p :| p in PatternsOf(c, kind) && Matches(lib, p, t, text) {
      CompiledPatterns(lib, NO_RULES, rules, kind, p);
      var k :| 0 <= k < |rules| && GivesPattern(lib, rules[k], kind, p);
    }
    if k :| 0 <= k < |rules| && GivesMatch(lib, rules[k], kind, t, text) {
      CompiledPatterns(lib, NO_RULES, rules, kind, Pattern(lib, rules[k]));
      assert GivesPattern(lib, rules[k], kind, Pattern(lib, rules[k]));
    }
  }

  /** A word is in the configuration exactly when a live rule of its kind gives it. */
  lemma WordGiven(lib: Lib, rules: seq<Rule>, c: Config, kind: Kind, word: string)
    requires FromRules(lib, rules) == Some(c) && IsWordKind(kind)
    ensures word in WordsOf(c, kind) <==> exists k :: 0 <= k < |rules| && GivesWord(lib, rules[k], kind, word)
  {
    CompiledWords(lib, NO_RULES, rules, kind, word);
  }

  lemma TextFires(lib: Lib, rules: seq<Rule>, c: Config, t: Ticket, kind: Kind, text: string, prefix: string)
    requires FromRules(lib, rules) == Some(c) && IsPatternKind(kind)
    requires forall rule :: rule in rules && rule.kind == kind ==>
               (Hits(lib, rule, t) <==> IsLive(lib, rule) && text != "" && Matches(lib, Pattern(lib, rule), t, text))
    ensures RulePattern(lib, PatternsOf(c, kind), t, text, prefix).Some? <==> AnyHits(lib, rules, t, kind)
  {
    PatternFires(lib, rules, c, t, kind, text);
  }

  lemma SenderFires(lib: Lib, rules: seq<Rule>, c: Config, t: Ticket)
    requires FromRules(lib, rules) == Some(c)
    ensures RuleSender(lib, c, t).Some?
       <==> SenderHits(lib, rules, t)
  {
    var email := SenderEmail(lib, t);
    WordGiven(lib, rules, c, SystemAddress, email);
    WordGiven(lib, rules, c, SystemDomain, EmailDomain(email));
    HintFires(lib, rules, c, t);
    WordHits(lib, rules, t, SystemAddress, email);
    WordHits(lib, rules, t, SystemDomain, EmailDomain(email));
  }

  lemma WordHits(lib: Lib, rules: seq<Rule>, t: Ticket, kind: Kind, word: string)
    requires (kind == SystemAddress && word == SenderEmail(lib, t)) ||
          (kind == SystemDomain && word == EmailDomain(SenderEmail(lib, t)))
    ensures AnyHits(lib, rules, t, kind)
       <==> SenderEmail(lib, t) != "" && exists k :: 0 <= k < |rules| && GivesWord(lib, rules[k], kind, word)
  {
    if k :| 0 <= k < |rules| && rules[k].kind == kind && Hits(lib, rules[k], t) {
      assert GivesWord(lib, rules[k], kind, word);
    }
    if SenderEmail(lib, t) != "" {
      if k :| 0 <= k < |rules| && GivesWord(lib, rules[k], kind, word) {
        assert rules[k].kind == kind && Hits(lib, rules[k], t);
      }
    }
  }

  lemma HintFires(lib: Lib, rules: seq<Rule>, c: Config, t: Ticket)
    requires FromRules(lib, rules) == Some(c)
    ensures AnyHits(lib, rules, t, AddressHint)
       <==> && SenderEmail(lib, t) != ""
            && exists hint :: hint in c.addressHints && Contains(lib.lower(SenderEmail(lib, t)), hint)
  {
    var email := lib.lower(SenderEmail(lib, t));
    if k :| 0 <= k < |rules| && rules[k].kind == AddressHint && Hits(lib, rules[k], t) {
      WordGiven(lib, rules, c, AddressHint, Word(lib, rules[k]));
      assert GivesWord(lib, rules[k], AddressHint, Word(lib, rules[k]));
    }
    if SenderEmail(lib, t) != "" {
      if hint :| hint in c.addressHints && Contains(email, hint) {
        WordGiven(lib, rules, c, AddressHint, hint);
        var k :| 0 <= k < |rules| && GivesWord(lib, rules[k], AddressHint, hint);
        assert Hits(lib, rules[k], t);
      }
    }
  }

  lemma ExactTagFires(lib: Lib, rules: seq<Rule>, c: Config, t: Ticket)
    requires FromRules(lib, rules) == Some(c)
    ensures AnyHits(lib, rules, t, ServiceTagExact) <==>
          exists i :: 0 <= i < |t.tags| && lib.lower(t.tags[i]) in c.serviceTagsExact
  {
    if k :| 0 <= k < |rules| && rules[k].kind == ServiceTagExact && Hits(lib, rules[k], t) {
      WordGiven(lib, rules, c, ServiceTagExact, Word(lib, rules[k]));
      assert GivesWord(lib, rules[k], ServiceTagExact, Word(lib, rules[k]));
    }
    if i :| 0 <= i < |t.tags| && lib.lower(t.tags[i]) in c.serviceTagsExact {
      WordGiven(lib, rules, c, ServiceTagExact, lib.lower(t.tags[i]));
      var k :| 0 <= k < |rules| && GivesWord(lib, rules[k], ServiceTagExact, lib.lower(t.tags[i]));
      assert Hits(lib, rules[k], t);
    }
  }

  lemma PrefixTagFires(lib: Lib, rules: seq<Rule>, c: Config, t: Ticket)
    requires FromRules(lib, rules) == Some(c)
    ensures AnyHits(lib, rules, t, ServiceTagPrefix) <==> HasAnyPrefix(lib, t.tags, c.serviceTagPrefixes)
  {
    if k :| 0 <= k < |rules| && rules[k].kind == ServiceTagPrefix && Hits(lib, rules[k], t) {
      WordGiven(lib, rules, c, ServiceTagPrefix, Word(lib, rules[k]));
      assert GivesWord(lib, rules[k], ServiceTagPrefix, Word(lib, rules[k]));
      var n :| 0 <= n < |c.serviceTagPrefixes| && c.serviceTagPrefixes[n] == Word(lib, rules[k]);
      var i :| 0 <= i < |t.tags| && StartsWith(lib.lower(t.tags[i]), Word(lib, rules[k]));
      assert StartsWith(lib.lower(t.tags[i]), c.serviceTagPrefixes[n]);
    }
    if i, n :| 0 <= i < |t.tags| && 0 <= n < |c.serviceTagPrefixes|
               && StartsWith(lib.lower(t.tags[i]), c.serviceTagPrefixes[n]) {
      WordGiven(lib, rules, c, ServiceTagPrefix, c.serviceTagPrefixes[n]);
      assert c.serviceTagPrefixes[n] in WordsOf(c, ServiceTagPrefix);
      var k :| 0 <= k < |rules| && GivesWord(lib, rules[k], ServiceTagPrefix, c.serviceTagPrefixes[n]);
      assert Hits(lib, rules[k], t);
    }
  }

  lemma SpamSubjectFires(lib: Lib, rules: seq<Rule>, c: Config, t: Ticket)
    requires FromRules(lib, rules) == Some(c)
    ensures RuleSpamSubject(lib, c, t).Some? <==> AnyHits(lib, rules, t, SpamSubjectPattern)
  {
    var email := SenderEmail(lib, t);
    if email != "" && IsPersonal(EmailDomain(email)) {
      TextFires(lib, rules, c, t, SpamSubjectPattern, lib.lower(Subject(lib, t)), "spam_marketing.pattern: ");
    }
  }

  lemma ExceptionsFire(lib: Lib, rules: seq<Rule>, c: Config, t: Ticket)
    requires FromRules(lib, rules) == Some(c)
    ensures RulePattern(lib, c.apiAllowedPatterns, t, Subject(lib, t), "api_exceptions.pattern: ").Some?
       <==> AnyHits(lib, rules, t, ApiAllowedPattern)
    ensures RulePattern(lib, c.customerBodyPatterns, t, Strip(t.description), "customer_body.pattern: ").Some?
       <==> AnyHits(lib, rules, t, CustomerBodyPattern)
  {
    TextFires(lib, rules, c, t, ApiAllowedPattern, Subject(lib, t), "api_exceptions.pattern: ");
    TextFires(lib, rules, c, t, CustomerBodyPattern, Strip(t.description), "customer_body.pattern: ");
  }

  lemma PatternRulesFire(lib: Lib, rules: seq<Rule>, c: Config, t: Ticket)
    requires FromRules(lib, rules) == Some(c)
    ensures RulePattern(lib, c.subjectPatterns, t, lib.lower(Subject(lib, t)), "rule_subject.pattern: ").Some?
       <==> AnyHits(lib, rules, t, SubjectPattern)
    ensures RulePattern(lib, c.spamBodyPatterns, t, Strip(t.description), "spam_body.pattern: ").Some?
       <==> AnyHits(lib, rules, t, SpamBodyPattern)
  {
    TextFires(lib, rules, c, t, SubjectPattern, lib.lower(Subject(lib, t)), "rule_subject.pattern: ");
    TextFires(lib, rules, c, t, SpamBodyPattern, Strip(t.description), "spam_body.pattern: ");
  }

  /** Classifying with the compiled configuration gives the service flag and rule name the rule list gives directly. */
  lemma CompiledIsRules(lib: Lib, rules: seq<Rule>, c: Config, t: Ticket)
    requires FromRules(lib, rules) == Some(c)
    ensures Verdict(ClassifyTicket(lib, c, t).isService, ClassifyTicket(lib, c, t).rule) == Interpret(lib, rules, t)
  {
    ExceptionsFire(lib, rules, c, t);
    SenderFires(lib, rules, c, t);
    ExactTagFires(lib, rules, c, t);
    PrefixTagFires(lib, rules, c, t);
    SpamSubjectFires(lib, rules, c, t);
    PatternRulesFire(lib, rules, c, t);
  }

  /* ---------- What the verdict does not depend on ---------- */

  /** A rule that compiles to nothing the classifier reads. */
  predicate Inert(lib: Lib, rule: Rule) {
    !IsLive(lib, rule) || rule.kind == PlatformTagHint
  }

  /** Every rule of the one list that counts is in the other. */
  ghost predicate Includes(lib: Lib, larger: seq<Rule>, smaller: seq<Rule>) {
    forall k :: 0 <= k < |smaller| ==> Inert(lib, smaller[k]) || smaller[k] in larger
  }

  lemma HitsCarryOver(lib: Lib, larger: seq<Rule>, smaller: seq<Rule>, t: Ticket, kind: Kind)
    requires Includes(lib, larger, smaller)
    ensures AnyHits(lib, smaller, t, kind) ==> AnyHits(lib, larger, t, kind)
  {
    if k :| 0 <= k < |smaller| && smaller[k].kind == kind && Hits(lib, smaller[k], t) {
      var n :| 0 <= n < |larger| && larger[n] == smaller[k];
    }
  }

  /**
    Order, repetition, and inactive, blank or platform-hint rules make no difference: neither to compiling nor to the
    verdict.
   */
  lemma SameLiveRules(lib: Lib, a: seq<Rule>, b: seq<Rule>, t: Ticket)
    requires Includes(lib, a, b) && Includes(lib, b, a)
    ensures FromRules(lib, a).Some? <==> FromRules(lib, b).Some?
    ensures Interpret(lib, a, t) == Interpret(lib, b, t)
    ensures FromRules(lib, a).Some? ==>
      var x, y := ClassifyTicket(lib, FromRules(lib, a).value, t), ClassifyTicket(lib, FromRules(lib, b).value, t);
      x.isService == y.isService && x.rule == y.rule
  {
    CompiledIff(lib, NO_RULES, a);
    CompiledIff(lib, NO_RULES, b);
    SameHits(lib, a, b, t);
    if FromRules(lib, a).Some? {
      CompiledIsRules(lib, a, FromRules(lib, a).value, t);
      CompiledIsRules(lib, b, FromRules(lib, b).value, t);
    }
  }

  lemma SameHits(lib: Lib, a: seq<Rule>, b: seq<Rule>, t: Ticket)
    requires Includes(lib, a, b) && Includes(lib, b, a)
    ensures Interpret(lib, a, t) == Interpret(lib, b, t)
  {
    forall kind
      ensures AnyHits(lib, a, t, kind) == AnyHits(lib, b, t, kind)
    {
      HitsCarryOver(lib, a, b, t, kind);
      HitsCarryOver(lib, b, a, t, kind);
    }
  }

  /** Any permutation of the rules compiles alike and gives the same verdict, read directly or compiled. */
  lemma PermutedRules(lib: Lib, a: seq<Rule>, b: seq<Rule>, t: Ticket)
    requires multiset(a) == multiset(b)
    ensures FromRules(lib, a).Some? <==> FromRules(lib, b).Some?
    ensures Interpret(lib, a, t) == Interpret(lib, b, t)
    ensures FromRules(lib, a).Some? ==>
      var x, y := ClassifyTicket(lib, FromRules(lib, a).value, t), ClassifyTicket(lib, FromRules(lib, b).value, t);
      x.isService == y.isService && x.rule == y.rule
  {
    assert forall rule :: rule in a <==> rule in multiset(a);
    assert forall rule :: rule in b <==> rule in multiset(b);
    assert forall k :: 0 <= k < |a| ==> a[k] in a;
    assert forall k :: 0 <= k < |b| ==> b[k] in b;
    SameLiveRules(lib, a, b, t);
  }

  predicate IsServiceKind(kind: Kind) {
    kind != ApiAllowedPattern && kind != CustomerBodyPattern
  }

  lemma ServiceRuleHits(lib: Lib, rules: seq<Rule>, rule: Rule, t: Ticket, kind: Kind)
    requires IsServiceKind(rule.kind)
    ensures AnyHits(lib, rules, t, kind) ==> AnyHits(lib, rules + [rule], t, kind)
    ensures !IsServiceKind(kind) ==> AnyHits(lib, rules + [rule], t, kind) == AnyHits(lib, rules, t, kind)
  {
    var more := rules + [rule];
    assert forall k :: 0 <= k < |rules| ==> rules[k] == more[k];
    HitsCarryOver(lib, more, rules, t, kind);
    if !IsServiceKind(kind) {
      if k :| 0 <= k < |more| && more[k].kind == kind && Hits(lib, more[k], t) {
        assert rules[k] == more[k];
      }
    }
  }

  lemma StillService(lib: Lib, rules: seq<Rule>, rule: Rule, t: Ticket)
    requires IsServiceKind(rule.kind) && Interpret(lib, rules, t).isService
    ensures Interpret(lib, rules + [rule], t).isService
  {
    forall kind
      ensures AnyHits(lib, rules, t, kind) ==> AnyHits(lib, rules + [rule], t, kind)
      ensures !IsServiceKind(kind) ==> AnyHits(lib, rules + [rule], t, kind) == AnyHits(lib, rules, t, kind)
    {
      ServiceRuleHits(lib, rules, rule, t, kind);
    }
  }

  /** Adding a rule of a service kind never turns a service ticket into a customer's. */
  lemma ServiceRulesOnlyAdd(lib: Lib, rules: seq<Rule>, rule: Rule, t: Ticket)
    requires IsServiceKind(rule.kind) && FromRules(lib, rules).Some? && FromRules(lib, rules + [rule]).Some?
    requires ClassifyTicket(lib, FromRules(lib, rules).value, t).isService
    ensures ClassifyTicket(lib, FromRules(lib, rules + [rule]).value, t).isService
  {
    CompiledIsRules(lib, rules, FromRules(lib, rules).value, t);
    CompiledIsRules(lib, rules + [rule], FromRules(lib, rules + [rule]).value, t);
    StillService(lib, rules, rule, t);
  }
}
