/** Which rules a brand's filter is compiled from, in terms of the committed rule rows. */
module BrandRules {
  import opened Text
  import opened Wrappers
  import opened RuleFilter
  import opened RuleMeaning
  import opened FilterCache

  lemma {:induction false} OwnRules(rules: seq<Rule>, brand: int, rule: Rule)
    ensures rule in RulesFor(rules, brand)
       <==> rule in rules && rule.isActive && (rule.brand == None || rule.brand == Some(brand))
    decreases |rules|
  {
    if rules != [] {
      OwnRules(rules[1..], brand, rule);
      assert rule in rules <==> rule == rules[0] || rule in rules[1..];
    }
  }

  /** A live rule of the kind, for every brand or for this one. */
  ghost predicate Counts(rule: Rule, brand: int, kind: Kind) {
    && rule.isActive && Strip(rule.value) != "" && rule.kind == kind
    && (rule.brand == None || rule.brand == Some(brand))
  }

  ghost predicate WordFrom(lib: Lib, rules: seq<Rule>, brand: int, kind: Kind, word: string) {
    exists rule :: rule in rules && Counts(rule, brand, kind)
      && word == if rule.isRegex then Strip(rule.value) else lib.lower(Strip(rule.value))
  }

  /** The rule's value, escaped unless it is a regex, for the rule's channel; in a body the dot matches line breaks. */
  ghost predicate IsPatternOf(lib: Lib, rule: Rule, p: ScopedPattern) {
    && p.pattern == (if rule.isRegex then Strip(rule.value) else lib.escape(Strip(rule.value)))
    && (p.dotAll <==> rule.kind == CustomerBodyPattern || rule.kind == SpamBodyPattern)
    && (p.via == if rule.via == None || lib.lower(Strip(rule.via.value)) == "" then None
                 else Some(lib.lower(Strip(rule.via.value))))
  }

  lemma PatternIs(lib: Lib, rule: Rule, p: ScopedPattern)
    ensures Pattern(lib, rule) == p <==> IsPatternOf(lib, rule, p)
  {
  }

  ghost predicate PatternFrom(lib: Lib, rules: seq<Rule>, brand: int, kind: Kind, p: ScopedPattern) {
    exists rule :: rule in rules && Counts(rule, brand, kind) && IsPatternOf(lib, rule, p)
  }

  lemma OneWord(lib: Lib, db: Committed, brand: int, c: Config, kind: Kind, word: string)
    requires FilterOf(lib, db, brand) == Some(c) && IsWordKind(kind)
    ensures word in WordsOf(c, kind) <==> WordFrom(lib, db.rules, brand, kind, word)
  {
    var own := RulesFor(db.rules, brand);
    WordGiven(lib, own, c, kind, word);
    if k :| 0 <= k < |own| && GivesWord(lib, own[k], kind, word) {
      OwnRules(db.rules, brand, own[k]);
    }
    if WordFrom(lib, db.rules, brand, kind, word) {
      var rule :| rule in db.rules && Counts(rule, brand, kind)
        && word == if rule.isRegex then Strip(rule.value) else lib.lower(Strip(rule.value));
      OwnRules(db.rules, brand, rule);
      var k :| 0 <= k < |own| && own[k] == rule;
      assert GivesWord(lib, own[k], kind, word);
    }
  }

  /** The words of a brand's filter are those of the live rules of their kind without a brand or with this one. */
  lemma BrandWords(lib: Lib, db: Committed, brand: int, c: Config, word: string)
    requires FilterOf(lib, db, brand) == Some(c)
    ensures word in c.systemDomains <==> WordFrom(lib, db.rules, brand, SystemDomain, word)
    ensures word in c.systemAddresses <==> WordFrom(lib, db.rules, brand, SystemAddress, word)
    ensures word in c.addressHints <==> WordFrom(lib, db.rules, brand, AddressHint, word)
    ensures word in c.serviceTagsExact <==> WordFrom(lib, db.rules, brand, ServiceTagExact, word)
    ensures word in c.serviceTagPrefixes <==> WordFrom(lib, db.rules, brand, ServiceTagPrefix, word)
  {
    forall kind | IsWordKind(kind)
      ensures word in WordsOf(c, kind) <==> WordFrom(lib, db.rules, brand, kind, word)
    {
      OneWord(lib, db, brand, c, kind, word);
    }
    assert word in c.serviceTagPrefixes <==> word in WordsOf(c, ServiceTagPrefix);
  }

  lemma OnePattern(lib: Lib, db: Committed, brand: int, c: Config, kind: Kind, p: ScopedPattern)
    requires FilterOf(lib, db, brand) == Some(c) && IsPatternKind(kind)
    ensures p in PatternsOf(c, kind) <==> PatternFrom(lib, db.rules, brand, kind, p)
  {
    var own := RulesFor(db.rules, brand);
    CompiledPatterns(lib, NO_RULES, own, kind, p);
    if k :| 0 <= k < |own| && GivesPattern(lib, own[k], kind, p) {
      OwnRules(db.rules, brand, own[k]);
      PatternIs(lib, own[k], p);
    }
    if rule :| rule in db.rules && Counts(rule, brand, kind) && IsPatternOf(lib, rule, p) {
      OwnRules(db.rules, brand, rule);
      PatternIs(lib, rule, p);
      var k :| 0 <= k < |own| && own[k] == rule;
      assert GivesPattern(lib, own[k], kind, p);
    }
  }

  /** So are its patterns: escaped unless the rule is a regex, for the rule's channel. */
  lemma BrandPatterns(lib: Lib, db: Committed, brand: int, c: Config, p: ScopedPattern)
    requires FilterOf(lib, db, brand) == Some(c)
    ensures p in c.subjectPatterns <==> PatternFrom(lib, db.rules, brand, SubjectPattern, p)
    ensures p in c.apiAllowedPatterns <==> PatternFrom(lib, db.rules, brand, ApiAllowedPattern, p)
    ensures p in c.customerBodyPatterns <==> PatternFrom(lib, db.rules, brand, CustomerBodyPattern, p)
    ensures p in c.spamSubjectPatterns <==> PatternFrom(lib, db.rules, brand, SpamSubjectPattern, p)
    ensures p in c.spamBodyPatterns <==> PatternFrom(lib, db.rules, brand, SpamBodyPattern, p)
  {
    forall kind | IsPatternKind(kind)
      ensures p in PatternsOf(c, kind) <==> PatternFrom(lib, db.rules, brand, kind, p)
    {
      OnePattern(lib, db, brand, c, kind, p);
    }
  }

  /** If escaped words compile, a brand has a filter exactly when its own live regex pattern rules compile. */
  lemma BrandCompilesIff(lib: Lib, db: Committed, brand: int)
    requires EscapedCompile(lib)
    ensures FilterOf(lib, db, brand).Some?
       <==> forall rule :: rule in db.rules && WrittenPattern(rule)
                           && (rule.brand == None || rule.brand == Some(brand))
              ==> lib.compiles(Strip(rule.value))
  {
    CompilesIff(lib, RulesFor(db.rules, brand));
    forall rule
      ensures rule in RulesFor(db.rules, brand)
         <==> rule in db.rules && rule.isActive && (rule.brand == None || rule.brand == Some(brand))
    {
      OwnRules(db.rules, brand, rule);
    }
  }

  lemma {:induction false} RulesForConcat(a: seq<Rule>, b: seq<Rule>, brand: int)
    ensures RulesFor(a + b, brand) == RulesFor(a, brand) + RulesFor(b, brand)
    decreases |a|
  {
    if a == [] {
      assert a + b == b;
    } else {
      assert (a + b)[0] == a[0] && (a + b)[1..] == a[1..] + b;
      RulesForConcat(a[1..], b, brand);
      var first := if Concerns(a[0], brand) then [a[0]] else [];
      assert first + (RulesFor(a[1..], brand) + RulesFor(b, brand)) == RulesFor(a, brand) + RulesFor(b, brand);
    }
  }

  /** A row that is inactive or of another brand: adding or removing it leaves the brand's filter the same. */
  lemma ForeignRule(lib: Lib, stamps: map<int, int>, later: map<int, int>, before: seq<Rule>, rule: Rule,
        after: seq<Rule>, brand: int)
    requires !rule.isActive || (rule.brand != None && rule.brand != Some(brand))
    ensures FilterOf(lib, Committed(later, before + [rule] + after), brand)
         == FilterOf(lib, Committed(stamps, before + after), brand)
  {
    RulesForConcat(before + [rule], after, brand);
    RulesForConcat(before, [rule], brand);
    RulesForConcat(before, after, brand);
    assert RulesFor([rule], brand) == RulesFor([rule][1..], brand) == [];
    assert RulesFor(before, brand) + [] == RulesFor(before, brand);
  }

  /** Editing such a row into another one of its sort leaves the filter the same too. */
  lemma ForeignEdit(lib: Lib, stamps: map<int, int>, later: map<int, int>, before: seq<Rule>, rule: Rule, edited: Rule,
        after: seq<Rule>, brand: int)
    requires !rule.isActive || (rule.brand != None && rule.brand != Some(brand))
    requires !edited.isActive || (edited.brand != None && edited.brand != Some(brand))
    ensures FilterOf(lib, Committed(later, before + [edited] + after), brand)
         == FilterOf(lib, Committed(stamps, before + [rule] + after), brand)
  {
    ForeignRule(lib, stamps, stamps, before, rule, after, brand);
    ForeignRule(lib, stamps, later, before, edited, after, brand);
  }

  /**
    A call of `GetFilter` that finds no entry under the stamp it read returns, and keeps under that stamp, the filter
    of the rows it loads.
   */
  lemma MissLoadsOwnRules(lib: Lib, byBrand: map<int, Entry>, checked: Committed, loaded: Committed, brand: int,
        c: Config, word: string, p: ScopedPattern)
    requires brand in byBrand ==>
      byBrand[brand].version != if brand in checked.stamps then Some(checked.stamps[brand]) else None
    requires CallResult(lib, byBrand, checked, loaded, brand).0 == Some(c)
    ensures var stamp := if brand in checked.stamps then Some(checked.stamps[brand]) else None;
            CallResult(lib, byBrand, checked, loaded, brand).1 == byBrand[brand := Entry(stamp, c)]
    ensures word in c.systemAddresses <==> WordFrom(lib, loaded.rules, brand, SystemAddress, word)
    ensures p in c.subjectPatterns <==> PatternFrom(lib, loaded.rules, brand, SubjectPattern, p)
  {
    BrandWords(lib, loaded, brand, c, word);
    BrandPatterns(lib, loaded, brand, c, p);
  }
}
