/** What filter rules mean, in terms of a rule's own fields and a ticket's own text. */
module RuleMeaning {
  import opened Text
  import opened Wrappers
  import opened RuleFilter

  ghost predicate Within(part: string, s: string) {
    exists before, after :: s == before + part + after
  }

  lemma ContainsIs(s: string, part: string)
    ensures Contains(s, part) <==> Within(part, s)
  {
    if i :| 0 <= i <= |s| && part <= s[i..] {
      assert s == s[..i] + part + s[i + |part|..];
    }
    if before, after :| s == before + part + after {
      assert part <= s[|before|..];
    }
  }

  /** The user part ends at the first at-sign. */
  ghost predicate AtDomain(email: string, domain: string) {
    exists user :: '@' !in user && email == user + "@" + domain
  }

  lemma {:induction false} AfterUser(user: string, domain: string)
    requires '@' !in user
    ensures AfterFirst(user + "@" + domain, '@') == domain
    decreases |user|
  {
    var email := user + "@" + domain;
    if user == "" {
      assert email[1..] == domain;
    } else {
      assert email[0] == user[0] && user[0] in user;
      assert email[1..] == user[1..] + "@" + domain;
      AfterUser(user[1..], domain);
    }
  }

  lemma DomainIs(email: string, domain: string)
    ensures '@' in email ==> (EmailDomain(email) == domain <==> AtDomain(email, domain))
    ensures '@' !in email ==> EmailDomain(email) == "" && !AtDomain(email, domain)
  {
    if user :| '@' !in user && email == user + "@" + domain {
      AfterUser(user, domain);
      assert email[|user|] == '@';
    }
    if '@' in email && EmailDomain(email) == domain {
      var k := AfterFirstIsTail(email, '@');
      assert email == email[..k - 1] + "@" + domain;
    }
  }

  /** A sender at a mailbox provider: the domain ends with one of five names. */
  ghost predicate FromMailbox(email: string) {
    exists host, name :: AtDomain(email, host + name)
      && name in {"gmail.com", "googlemail.com", "outlook.com", "yahoo.com", "hotmail.com"}
  }

  lemma EndsWithIs(s: string, suffix: string)
    ensures EndsWith(s, suffix) <==> exists host :: s == host + suffix
  {
    if EndsWith(s, suffix) {
      assert s == s[..|s| - |suffix|] + suffix;
    }
  }

  lemma PersonalIs(email: string)
    ensures IsPersonal(EmailDomain(email)) <==> FromMailbox(email)
  {
    var domain := EmailDomain(email);
    DomainIs(email, domain);
    if FromMailbox(email) {
      var host, name :| AtDomain(email, host + name)
        && name in {"gmail.com", "googlemail.com", "outlook.com", "yahoo.com", "hotmail.com"};
      DomainIs(email, host + name);
      EndsWithIs(domain, name);
    }
    if IsPersonal(domain) {
      var name :| name in {"gmail.com", "googlemail.com", "outlook.com", "yahoo.com", "hotmail.com"}
        && EndsWith(domain, name);
      EndsWithIs(domain, name);
      var host :| domain == host + name;
      assert '@' in email;
      assert AtDomain(email, host + name);
    }
  }

  /* ---------- A rule and a ticket ---------- */

  /** The rule's channel, blank meaning any, is the ticket's; both trimmed and in lower case. */
  ghost predicate ChannelFits(lib: Lib, rule: Rule, t: Ticket) {
    || rule.via == None || lib.lower(Strip(rule.via.value)) == ""
    || lib.lower(Strip(rule.via.value)) == lib.lower(Strip(t.channel))
  }

  /** A pattern rule finds itself in a text that is not empty: a regex as it is written, plain words escaped. */
  ghost predicate Finds(lib: Lib, rule: Rule, t: Ticket, dotAll: bool, text: string) {
    && text != "" && ChannelFits(lib, rule, t)
    && lib.search(if rule.isRegex then Strip(rule.value) else lib.escape(Strip(rule.value)), dotAll, text)
  }

  /** The rule, taken on its own, speaks about this ticket. */
  ghost predicate Speaks(lib: Lib, rule: Rule, t: Ticket) {
    var email := lib.lower(Strip(t.address));
    var subject := Strip(if t.subject != "" then t.subject else t.rawSubject);
    var body := Strip(t.description);
    var word := if rule.isRegex then Strip(rule.value) else lib.lower(Strip(rule.value));
    && rule.isActive && Strip(rule.value) != ""
    && match rule.kind
       case SystemAddress => email != "" && email == word
       case SystemDomain => email != "" && (AtDomain(email, word) || ('@' !in email && word == ""))
       case AddressHint => email != "" && Within(word, lib.lower(email))
       case ServiceTagExact => exists tag :: tag in t.tags && lib.lower(tag) == word
       case ServiceTagPrefix => exists tag, rest :: tag in t.tags && lib.lower(tag) == word + rest
       case PlatformTagHint => false
       case ApiAllowedPattern => Finds(lib, rule, t, false, subject)
       case SubjectPattern => Finds(lib, rule, t, false, lib.lower(subject))
       case SpamSubjectPattern => FromMailbox(email) && Finds(lib, rule, t, false, lib.lower(subject))
       case CustomerBodyPattern => Finds(lib, rule, t, true, body)
       case SpamBodyPattern => Finds(lib, rule, t, true, body)
  }

  lemma TagsSpeak(lib: Lib, rule: Rule, t: Ticket)
    requires rule.kind in {ServiceTagExact, ServiceTagPrefix}
    ensures Hits(lib, rule, t) <==> Speaks(lib, rule, t)
  {
    var word := if rule.isRegex then Strip(rule.value) else lib.lower(Strip(rule.value));
    if i :| 0 <= i < |t.tags| && StartsWith(lib.lower(t.tags[i]), word) {
      assert lib.lower(t.tags[i]) == word + lib.lower(t.tags[i])[|word|..];
    }
    if tag, rest :| tag in t.tags && lib.lower(tag) == word + rest {
      var i :| 0 <= i < |t.tags| && t.tags[i] == tag;
      assert StartsWith(lib.lower(t.tags[i]), word);
    }
  }

  /** The compiled rule hits a ticket exactly when its fields say so. */
  lemma HitsIsSpeaks(lib: Lib, rule: Rule, t: Ticket)
    ensures Hits(lib, rule, t) <==> Speaks(lib, rule, t)
  {
    var email := lib.lower(Strip(t.address));
    var word := if rule.isRegex then Strip(rule.value) else lib.lower(Strip(rule.value));
    match rule.kind
    case SystemDomain => DomainIs(email, word);
    case AddressHint => ContainsIs(lib.lower(email), word);
    case ServiceTagExact => TagsSpeak(lib, rule, t);
    case ServiceTagPrefix => TagsSpeak(lib, rule, t);
    case SpamSubjectPattern => PersonalIs(email);
    case _ =>
  }

  /** A known sender whose name gives away an automated message. */
  ghost predicate Automated(lib: Lib, t: Ticket) {
    var name := Strip(t.name);
    && lib.lower(Strip(t.address)) != "" && name != ""
    && (Within("do not reply", lib.lower(name)) || Within("notification", lib.lower(name)))
  }

  ghost predicate SomeSpeaks(lib: Lib, rules: seq<Rule>, t: Ticket, kinds: set<Kind>) {
    exists rule :: rule in rules && rule.kind in kinds && Speaks(lib, rule, t)
  }

  lemma AnyHitsSpeaks(lib: Lib, rules: seq<Rule>, t: Ticket, kind: Kind)
    ensures AnyHits(lib, rules, t, kind) <==> SomeSpeaks(lib, rules, t, {kind})
  {
    if k :| 0 <= k < |rules| && rules[k].kind == kind && Hits(lib, rules[k], t) {
      HitsIsSpeaks(lib, rules[k], t);
    }
    if rule :| rule in rules && rule.kind == kind && Speaks(lib, rule, t) {
      HitsIsSpeaks(lib, rule, t);
      var k :| 0 <= k < |rules| && rules[k] == rule;
    }
  }

  lemma SenderSpeaks(lib: Lib, rules: seq<Rule>, t: Ticket)
    ensures SenderHits(lib, rules, t)
       <==> SomeSpeaks(lib, rules, t, {SystemAddress, SystemDomain, AddressHint}) || Automated(lib, t)
  {
    AnyHitsSpeaks(lib, rules, t, SystemAddress);
    AnyHitsSpeaks(lib, rules, t, SystemDomain);
    AnyHitsSpeaks(lib, rules, t, AddressHint);
    ContainsIs(lib.lower(Strip(t.name)), "do not reply");
    ContainsIs(lib.lower(Strip(t.name)), "notification");
  }

  /** Any list that compiles: which tickets are service, which rule says so, and which exceptions come first. */
  lemma RulesDecide(lib: Lib, rules: seq<Rule>, c: Config, t: Ticket)
    requires FromRules(lib, rules) == Some(c)
    ensures var d := ClassifyTicket(lib, c, t);
            var api := SomeSpeaks(lib, rules, t, {ApiAllowedPattern});
            var customer := SomeSpeaks(lib, rules, t, {CustomerBodyPattern});
            var sender := SomeSpeaks(lib, rules, t, {SystemAddress, SystemDomain, AddressHint}) || Automated(lib, t);
            var subject := SomeSpeaks(lib, rules, t, {SubjectPattern});
            var tag := SomeSpeaks(lib, rules, t, {ServiceTagExact, ServiceTagPrefix});
            var spamSubject := SomeSpeaks(lib, rules, t, {SpamSubjectPattern});
            var spamBody := SomeSpeaks(lib, rules, t, {SpamBodyPattern});
            && (d.isService <==> !api && !customer && (sender || subject || tag || spamSubject || spamBody))
            && (d.rule == Some(ApiException) <==> api)
            && (d.rule == Some(CustomerBodyException) <==> !api && customer)
            && (d.rule == Some(SenderStrict) <==> !api && !customer && sender)
            && (d.rule == Some(SubjectRule) <==> d.isService && !sender && subject)
            && (d.rule == Some(TagService) <==> d.isService && !sender && !subject && tag)
            && (d.rule == Some(SpamSubject) <==> d.isService && !sender && !subject && !tag && spamSubject)
            && (d.rule == Some(SpamBody) <==> d.isService && !sender && !subject && !tag && !spamSubject)
  {
    CompiledIsRules(lib, rules, c, t);
    SenderSpeaks(lib, rules, t);
    forall kind
      ensures AnyHits(lib, rules, t, kind) <==> SomeSpeaks(lib, rules, t, {kind})
    {
      AnyHitsSpeaks(lib, rules, t, kind);
    }
    assert SomeSpeaks(lib, rules, t, {ServiceTagExact, ServiceTagPrefix}) <==>
      AnyHits(lib, rules, t, ServiceTagExact) || AnyHits(lib, rules, t, ServiceTagPrefix);
  }

  /* ---------- The reason given ---------- */

  lemma {:induction false} FirstMatchMatches(lib: Lib, patterns: seq<ScopedPattern>, t: Ticket, text: string)
    ensures var p := FirstMatch(lib, patterns, t, text);
            p.Some? ==> p.value in patterns && Matches(lib, p.value, t, text)
  {
    if patterns != [] {
      FirstMatchMatches(lib, patterns[1..], t, text);
    }
  }

  /** A pattern rule of the list speaks, and the reason is this prefix and the rule's own pattern. */
  ghost predicate ReasonGiven(lib: Lib, rules: seq<Rule>, t: Ticket, kind: Kind, prefix: string, reason: string) {
    exists rule :: rule in rules && rule.kind == kind && Speaks(lib, rule, t)
      && reason == prefix + if rule.isRegex then Strip(rule.value) else lib.escape(Strip(rule.value))
  }

  /** The text that each kind of pattern rule looks at. */
  ghost function TextFor(lib: Lib, kind: Kind, t: Ticket): string {
    var subject := Strip(if t.subject != "" then t.subject else t.rawSubject);
    if kind in {CustomerBodyPattern, SpamBodyPattern} then Strip(t.description)
    else if kind == ApiAllowedPattern then subject
    else lib.lower(subject)
  }

  lemma FindsIs(lib: Lib, rule: Rule, t: Ticket)
    requires IsPatternKind(rule.kind) && IsLive(lib, rule)
    requires TextFor(lib, rule.kind, t) != "" && Matches(lib, Pattern(lib, rule), t, TextFor(lib, rule.kind, t))
    requires rule.kind == SpamSubjectPattern ==> FromMailbox(lib.lower(Strip(t.address)))
    ensures Speaks(lib, rule, t)
  {
  }

  lemma PatternReason(lib: Lib, rules: seq<Rule>, c: Config, t: Ticket, kind: Kind, prefix: string)
    requires FromRules(lib, rules) == Some(c) && IsPatternKind(kind)
    requires RulePattern(lib, PatternsOf(c, kind), t, TextFor(lib, kind, t), prefix).Some?
    requires kind == SpamSubjectPattern ==> FromMailbox(lib.lower(Strip(t.address)))
    ensures ReasonGiven(lib, rules, t, kind, prefix,
              RulePattern(lib, PatternsOf(c, kind), t, TextFor(lib, kind, t), prefix).value)
  {
    FirstMatchMatches(lib, PatternsOf(c, kind), t, TextFor(lib, kind, t));
    var p := FirstMatch(lib, PatternsOf(c, kind), t, TextFor(lib, kind, t)).value;
    CompiledPatterns(lib, NO_RULES, rules, kind, p);
    var k :| 0 <= k < |rules| && GivesPattern(lib, rules[k], kind, p);
    FindsIs(lib, rules[k], t);
  }

  /** The detail of a decision by a pattern exception is the pattern of a rule of the list that speaks of the ticket. */
  lemma DetailOfException(lib: Lib, rules: seq<Rule>, c: Config, t: Ticket)
    requires FromRules(lib, rules) == Some(c)
    ensures var d := ClassifyTicket(lib, c, t);
            && (d.rule == Some(ApiException) ==>
                  ReasonGiven(lib, rules, t, ApiAllowedPattern, "api_exceptions.pattern: ", d.detail))
            && (d.rule == Some(CustomerBodyException) ==>
                  ReasonGiven(lib, rules, t, CustomerBodyPattern, "customer_body.pattern: ", d.detail))
  {
    var d := ClassifyTicket(lib, c, t);
    if d.rule == Some(ApiException) {
      PatternReason(lib, rules, c, t, ApiAllowedPattern, "api_exceptions.pattern: ");
    } else if d.rule == Some(CustomerBodyException) {
      PatternReason(lib, rules, c, t, CustomerBodyPattern, "customer_body.pattern: ");
    }
  }

  /** So is that of a decision by a subject or spam pattern. */
  lemma DetailOfPattern(lib: Lib, rules: seq<Rule>, c: Config, t: Ticket)
    requires FromRules(lib, rules) == Some(c)
    ensures var d := ClassifyTicket(lib, c, t);
            && (d.rule == Some(SubjectRule) ==>
                  ReasonGiven(lib, rules, t, SubjectPattern, "rule_subject.pattern: ", d.detail))
            && (d.rule == Some(SpamSubject) ==>
                  ReasonGiven(lib, rules, t, SpamSubjectPattern, "spam_marketing.pattern: ", d.detail))
            && (d.rule == Some(SpamBody) ==>
                  ReasonGiven(lib, rules, t, SpamBodyPattern, "spam_body.pattern: ", d.detail))
  {
    var d := ClassifyTicket(lib, c, t);
    if d.rule == Some(SubjectRule) {
      PatternReason(lib, rules, c, t, SubjectPattern, "rule_subject.pattern: ");
    } else if d.rule == Some(SpamSubject) {
      PersonalIs(SenderEmail(lib, t));
      PatternReason(lib, rules, c, t, SpamSubjectPattern, "spam_marketing.pattern: ");
    } else if d.rule == Some(SpamBody) {
      PatternReason(lib, rules, c, t, SpamBodyPattern, "spam_body.pattern: ");
    }
  }

  lemma SenderReason(lib: Lib, rules: seq<Rule>, c: Config, t: Ticket)
    requires FromRules(lib, rules) == Some(c) && RuleSender(lib, c, t).Some?
    ensures var email := lib.lower(Strip(t.address));
            RuleSender(lib, c, t).value
              == if AnyHits(lib, rules, t, SystemAddress) then "sender_strict.system_address: " + email
                 else if AnyHits(lib, rules, t, SystemDomain) then "sender_strict.system_domain: " + EmailDomain(email)
                 else if AnyHits(lib, rules, t, AddressHint) then "sender_strict.address_hint"
                 else "sender_strict.sender_name: " + Strip(t.name)
  {
    var email := SenderEmail(lib, t);
    WordGiven(lib, rules, c, SystemAddress, email);
    WordGiven(lib, rules, c, SystemDomain, EmailDomain(email));
    HintFires(lib, rules, c, t);
    WordHits(lib, rules, t, SystemAddress, email);
    WordHits(lib, rules, t, SystemDomain, EmailDomain(email));
  }

  lemma DetailIsReason(lib: Lib, c: Config, t: Ticket)
    ensures var d := ClassifyTicket(lib, c, t);
            && (d.rule == Some(SenderStrict) ==> RuleSender(lib, c, t) == Some(d.detail))
            && (d.rule == Some(TagService) ==> RuleTags(lib, c, t) == Some(d.detail))
  {
  }

  /** The detail of a decision by sender or tag tells which kind of rule spoke first. */
  lemma DetailOfSender(lib: Lib, rules: seq<Rule>, c: Config, t: Ticket)
    requires FromRules(lib, rules) == Some(c)
    ensures var d, email := ClassifyTicket(lib, c, t), lib.lower(Strip(t.address));
            && (d.rule == Some(SenderStrict) ==>
                  d.detail
                    == (if SomeSpeaks(lib, rules, t, {SystemAddress}) then "sender_strict.system_address: " + email
                        else if SomeSpeaks(lib, rules, t, {SystemDomain}) then
                          "sender_strict.system_domain: " + EmailDomain(email)
                        else if SomeSpeaks(lib, rules, t, {AddressHint}) then "sender_strict.address_hint"
                        else "sender_strict.sender_name: " + Strip(t.name)))
            && (d.rule == Some(TagService) ==>
                  d.detail
                    == if SomeSpeaks(lib, rules, t, {ServiceTagExact}) then "tags_service.tag"
                       else "tags_service.tag_prefix")
  {
    DetailIsReason(lib, c, t);
    AnyHitsSpeaks(lib, rules, t, SystemAddress);
    AnyHitsSpeaks(lib, rules, t, SystemDomain);
    AnyHitsSpeaks(lib, rules, t, AddressHint);
    if ClassifyTicket(lib, c, t).rule == Some(SenderStrict) {
      SenderReason(lib, rules, c, t);
    }
    ExactTagFires(lib, rules, c, t);
    AnyHitsSpeaks(lib, rules, t, ServiceTagExact);
  }

  /* ---------- Which lists compile ---------- */

  ghost predicate EscapedCompile(lib: Lib) {
    forall word :: lib.compiles(lib.escape(word))
  }

  /** A live pattern rule that is compiled as it is written. */
  ghost predicate WrittenPattern(rule: Rule) {
    && rule.isActive && Strip(rule.value) != "" && rule.isRegex
    && rule.kind in {SubjectPattern, ApiAllowedPattern, CustomerBodyPattern, SpamSubjectPattern, SpamBodyPattern}
  }

  /** If escaped words compile, a list compiles exactly when the trimmed value of every live regex pattern rule does. */
  lemma CompilesIff(lib: Lib, rules: seq<Rule>)
    requires EscapedCompile(lib)
    ensures FromRules(lib, rules).Some?
       <==> forall rule :: rule in rules && WrittenPattern(rule) ==> lib.compiles(Strip(rule.value))
  {
    CompiledIff(lib, NO_RULES, rules);
    forall rule | rule in rules
      ensures Compilable(lib, rule) <==> (WrittenPattern(rule) ==> lib.compiles(Strip(rule.value)))
    {
      assert lib.compiles(lib.escape(Strip(rule.value)));
    }
    assert forall k :: 0 <= k < |rules| ==> rules[k] in rules;
  }

  /** One regex pattern rule alone compiles exactly if its trimmed value does; nothing is asked of escaping. */
  lemma RegexCompilesIff(lib: Lib, rule: Rule)
    requires WrittenPattern(rule)
    ensures FromRules(lib, [rule]).Some? <==> lib.compiles(Strip(rule.value))
  {
    CompiledIff(lib, NO_RULES, [rule]);
    assert [rule][0] == rule;
  }

  /** Inactive and blank rules may be left out anywhere. */
  lemma {:induction false} DeadRule(lib: Lib, before: seq<Rule>, rule: Rule, after: seq<Rule>)
    requires !rule.isActive || IsBlank(rule.value)
    ensures FromRules(lib, before + [rule] + after) == FromRules(lib, before + after)
  {
    StripBlank(rule.value);
    DeadRuleFrom(lib, NO_RULES, before, rule, after);
  }

  lemma {:induction false} DeadRuleFrom(lib: Lib, c: Config, before: seq<Rule>, rule: Rule, after: seq<Rule>)
    requires !rule.isActive || Strip(rule.value) == ""
    ensures Compiled(lib, c, before + [rule] + after) == Compiled(lib, c, before + after)
    decreases |before|
  {
    if before == [] {
      assert before + [rule] + after == [rule] + after && ([rule] + after)[1..] == after && before + after == after;
    } else {
      assert (before + [rule] + after)[1..] == before[1..] + [rule] + after;
      assert (before + after)[1..] == before[1..] + after;
      var next := if IsLive(lib, before[0]) then AddRule(lib, c, before[0]) else c;
      DeadRuleFrom(lib, next, before[1..], rule, after);
    }
  }

  /* ---------- One rule alone ---------- */

  /** Searching for an escaped word finds it wherever it occurs up to case. */
  ghost predicate WordSearch(lib: Lib) {
    forall word, dotAll, text ::
      lib.search(lib.escape(word), dotAll, text) <==> Within(lib.lower(word), lib.lower(text))
  }

  lemma OneSpeaks(lib: Lib, rule: Rule, t: Ticket, kinds: set<Kind>)
    ensures SomeSpeaks(lib, [rule], t, kinds) <==> rule.kind in kinds && Speaks(lib, rule, t)
  {
    assert [rule][0] == rule;
  }

  lemma OneDecides(lib: Lib, rule: Rule, c: Config, t: Ticket)
    requires FromRules(lib, [rule]) == Some(c)
    ensures ClassifyTicket(lib, c, t).isService
       <==> (!Speaks(lib, rule, t) && Automated(lib, t))
            || (Speaks(lib, rule, t) && rule.kind != ApiAllowedPattern && rule.kind != CustomerBodyPattern)
    ensures ClassifyTicket(lib, c, t).rule == Some(ApiException) <==>
            Speaks(lib, rule, t) && rule.kind == ApiAllowedPattern
    ensures ClassifyTicket(lib, c, t).rule == Some(CustomerBodyException) <==>
            Speaks(lib, rule, t) && rule.kind == CustomerBodyPattern
  {
    RulesDecide(lib, [rule], c, t);
    forall kinds
      ensures SomeSpeaks(lib, [rule], t, kinds) <==> rule.kind in kinds && Speaks(lib, rule, t)
    {
      OneSpeaks(lib, rule, t, kinds);
    }
  }

  /** The verdict that a pattern rule asks for is the ticket's. */
  ghost predicate RuleDecides(lib: Lib, rule: Rule, c: Config, t: Ticket) {
    var d := ClassifyTicket(lib, c, t);
    match rule.kind
    case ApiAllowedPattern => d == Decision(false, Some(ApiException), d.detail)
    case CustomerBodyPattern => d == Decision(false, Some(CustomerBodyException), d.detail)
    case _ => d.isService
  }

  /** An automated sender makes the ticket a service one unless the rule is an exception. */
  ghost predicate ByName(lib: Lib, rule: Rule, t: Ticket) {
    Automated(lib, t) && rule.kind != ApiAllowedPattern && rule.kind != CustomerBodyPattern
  }

  /** The channel fits and, for a spam subject, the sender is at a mailbox provider. */
  ghost predicate InScope(lib: Lib, rule: Rule, t: Ticket) {
    && ChannelFits(lib, rule, t)
    && (rule.kind == SpamSubjectPattern ==> FromMailbox(lib.lower(Strip(t.address))))
  }

  /** A live regex rule decides a ticket exactly as its own value, unescaped, searches the text. */
  lemma RegexRule(lib: Lib, rule: Rule, t: Ticket, text: string)
    requires WrittenPattern(rule) && lib.compiles(Strip(rule.value)) && text == TextFor(lib, rule.kind, t)
    ensures FromRules(lib, [rule]).Some?
    ensures RuleDecides(lib, rule, FromRules(lib, [rule]).value, t)
       <==> ByName(lib, rule, t)
            || (text != "" && InScope(lib, rule, t) &&
                lib.search(Strip(rule.value), rule.kind == CustomerBodyPattern || rule.kind == SpamBodyPattern, text))
  {
    RegexCompilesIff(lib, rule);
    OneDecides(lib, rule, FromRules(lib, [rule]).value, t);
  }

  /** A live plain rule decides a ticket exactly if the text contains its value, upper or lower case. */
  lemma PlainRule(lib: Lib, rule: Rule, t: Ticket, text: string)
    requires EscapedCompile(lib) && WordSearch(lib) && text == TextFor(lib, rule.kind, t)
    requires WrittenPattern(rule.(isRegex := true)) && !rule.isRegex
    ensures FromRules(lib, [rule]).Some?
    ensures RuleDecides(lib, rule, FromRules(lib, [rule]).value, t)
       <==> ByName(lib, rule, t)
            || (text != "" && InScope(lib, rule, t) && Within(lib.lower(Strip(rule.value)), lib.lower(text)))
  {
    CompilesIff(lib, [rule]);
    OneDecides(lib, rule, FromRules(lib, [rule]).value, t);
  }
}
