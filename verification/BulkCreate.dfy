// Creating many accounts with one statement (sub2api/backend/ent/account_create.go): a chain of
// mutators, each of which checks its builder, prepares its row and calls the next one; the last
// one makes the statement, and the rest is done while the chain unwinds.
module BulkCreate {
  import opened Options

  type Fields = map<string, string>

  /* ---------- defaults and checks ---------- */

  // A default is missing where its generator was never set up.
  datatype Default = Default(field: string, value: Option<string>)

  datatype Rule = Rule(field: string, required: bool, valid: string -> bool)

  datatype Error = Given(text: string) | Missing(field: string) | Invalid(field: string) | Refused(text: string)

  // Fills in what is not set, in order, up to the first default that is needed and missing.
  function Completed(fields: Fields, defaults: seq<Default>): Fields
    decreases |defaults|
  {
    if defaults == [] then fields
    else
      var d := defaults[0];
      if d.field in fields then Completed(fields, defaults[1..])
      else if d.value == None then fields
      else Completed(fields[d.field := d.value.value], defaults[1..])
  }

  lemma {:induction false} CompletedKeeps(fields: Fields, defaults: seq<Default>, field: string)
    ensures field in fields
        ==> field in Completed(fields, defaults) && Completed(fields, defaults)[field] == fields[field]
    decreases |defaults|
  {
    if defaults != [] {
      var d := defaults[0];
      if d.field in fields {
        CompletedKeeps(fields, defaults[1..], field);
      } else if d.value != None {
        CompletedKeeps(fields[d.field := d.value.value], defaults[1..], field);
      }
    }
  }

  // Nothing is left to fill in the second time.
  lemma {:induction false} CompletedTwice(fields: Fields, defaults: seq<Default>)
    ensures Completed(Completed(fields, defaults), defaults) == Completed(fields, defaults)
    decreases |defaults|
  {
    if defaults != [] {
      var d := defaults[0];
      if d.field in fields {
        CompletedTwice(fields, defaults[1..]);
        CompletedKeeps(fields, defaults[1..], d.field);
      } else if d.value != None {
        var more := fields[d.field := d.value.value];
        CompletedTwice(more, defaults[1..]);
        CompletedKeeps(more, defaults[1..], d.field);
      }
    }
  }

  // The first default for a field.
  function DefaultFor(defaults: seq<Default>, field: string): Option<string> {
    if defaults == [] then None
    else if defaults[0].field == field then defaults[0].value
    else DefaultFor(defaults[1..], field)
  }

  function Lookup(fields: Fields, field: string): Option<string> {
    if field in fields then Some(fields[field]) else None
  }

  // The defaults before the first one that is needed and has no value: the rest are not looked at.
  function Reached(fields: Fields, defaults: seq<Default>): (r: seq<Default>)
    ensures |r| <= |defaults| && r == defaults[..|r|]
    decreases |defaults|
  {
    if defaults == [] then []
    else
      var d := defaults[0];
      if d.field in fields then [d] + Reached(fields, defaults[1..])
      else if d.value == None then []
      else [d] + Reached(fields[d.field := d.value.value], defaults[1..])
  }

  // Default j has no value, and neither the caller nor an earlier default sets its field.
  predicate NeededMissing(fields: Fields, defaults: seq<Default>, j: nat)
    requires j < |defaults|
  {
    && defaults[j].value == None && defaults[j].field !in fields
    && forall i :: 0 <= i < j ==> defaults[i].field != defaults[j].field
  }

  lemma {:induction false} ReachedExactly(fields: Fields, defaults: seq<Default>, j: nat)
    requires j < |defaults|
    ensures |Reached(fields, defaults)| == j <==>
            NeededMissing(fields, defaults, j) && forall i: nat :: i < j ==> !NeededMissing(fields, defaults, i)
    decreases |defaults|
  {
    var d, rest := defaults[0], defaults[1..];
    var more := if d.field in fields || d.value == None then fields else fields[d.field := d.value.value];
    if d.field !in fields && d.value == None {
      assert NeededMissing(fields, defaults, 0);
    } else {
      assert !NeededMissing(fields, defaults, 0);
      forall i: nat | i < |rest| ensures NeededMissing(more, rest, i) <==> NeededMissing(fields, defaults, i + 1) {
        ShiftNeeded(fields, defaults, more, i);
      }
      hide NeededMissing;
      if j > 0 {
        ReachedExactly(more, rest, j - 1);
        assert (forall i: nat :: i < j ==> !NeededMissing(fields, defaults, i))
          <==> forall i: nat :: i < j - 1 ==> !NeededMissing(more, rest, i) by {
          assert forall i: nat ::
              0 < i < j ==> (NeededMissing(fields, defaults, i) <==> NeededMissing(more, rest, i - 1));
        }
      }
    }
  }

  lemma ShiftNeeded(fields: Fields, defaults: seq<Default>, more: Fields, i: nat)
    requires i + 1 < |defaults|
    requires var d := defaults[0];
             if d.field in fields then more == fields
             else d.value.Some? && more == fields[d.field := d.value.value]
    ensures NeededMissing(more, defaults[1..], i) <==> NeededMissing(fields, defaults, i + 1)
  {
    assert forall l :: 0 < l < |defaults| ==> defaults[l] == defaults[1..][l - 1];
    assert forall l :: 0 <= l < |defaults| - 1 ==> defaults[1..][l] == defaults[l + 1];
  }

  lemma {:induction false} CompletedLookup(fields: Fields, defaults: seq<Default>, field: string)
    ensures Lookup(Completed(fields, defaults), field) ==
            if field in fields then Some(fields[field]) else DefaultFor(Reached(fields, defaults), field)
    decreases |defaults|
  {
    if defaults != [] {
      var d := defaults[0];
      if d.field in fields {
        CompletedLookup(fields, defaults[1..], field);
      } else if d.value.Some? {
        CompletedLookup(fields[d.field := d.value.value], defaults[1..], field);
      }
    }
  }

  // The field of the default that stopped the others stays unset.
  lemma {:induction false} StoppedFieldUnset(fields: Fields, defaults: seq<Default>)
    requires |Reached(fields, defaults)| < |defaults|
    ensures defaults[|Reached(fields, defaults)|].field !in Completed(fields, defaults)
    decreases |defaults|
  {
    var d := defaults[0];
    if d.field in fields {
      StoppedFieldUnset(fields, defaults[1..]);
    } else if d.value.Some? {
      StoppedFieldUnset(fields[d.field := d.value.value], defaults[1..]);
    }
  }

  function Broken(rule: Rule, fields: Fields): Option<Error> {
    if rule.field in fields then
      if rule.valid(fields[rule.field]) then None else Some(Invalid(rule.field))
    else if rule.required then Some(Missing(rule.field))
    else None
  }

  // The first rule the fields break.
  function Check(fields: Fields, rules: seq<Rule>): Option<Error> {
    if rules == [] then None
    else if Broken(rules[0], fields).Some? then Broken(rules[0], fields)
    else Check(fields, rules[1..])
  }

  // A builder is accepted exactly when every required field is set or has a default that is
  // reached, and every value, set or default, is valid.
  lemma {:induction false} AcceptedExactly(fields: Fields, defaults: seq<Default>, rules: seq<Rule>)
    ensures Check(Completed(fields, defaults), rules) == None <==>
            forall i :: 0 <= i < |rules| ==>
              var f := rules[i].field;
              var v := if f in fields then Some(fields[f]) else DefaultFor(Reached(fields, defaults), f);
              if v == None then !rules[i].required else rules[i].valid(v.value)
    decreases |rules|
  {
    if rules != [] {
      CompletedLookup(fields, defaults, rules[0].field);
      AcceptedExactly(fields, defaults, rules[1..]);
      hide Completed, DefaultFor, Reached;
      assert forall i :: 0 < i < |rules| ==> rules[i] == rules[1..][i - 1];
      assert forall i :: 0 <= i < |rules| - 1 ==> rules[1..][i] == rules[i + 1];
    }
  }

  // So a needed default without a value is found by the check, if its field is required.
  lemma MissingDefaultRejected(fields: Fields, defaults: seq<Default>, rules: seq<Rule>, i: nat)
    requires |Reached(fields, defaults)| < |defaults| && i < |rules|
    requires rules[i].required && rules[i].field == defaults[|Reached(fields, defaults)|].field
    ensures Check(Completed(fields, defaults), rules).Some?
  {
    hide Completed, Reached;
    StoppedFieldUnset(fields, defaults);
    BrokenRuleFails(Completed(fields, defaults), rules, i);
  }

  lemma {:induction false} BrokenRuleFails(fields: Fields, rules: seq<Rule>, i: nat)
    requires i < |rules| && Broken(rules[i], fields).Some?
    ensures Check(fields, rules).Some?
  {
    if i > 0 {
      BrokenRuleFails(fields, rules[1..], i - 1);
    }
  }

  lemma {:induction false} PassMeansSet(fields: Fields, rules: seq<Rule>, i: nat)
    requires Check(fields, rules) == None && i < |rules| && rules[i].required
    ensures rules[i].field in fields
  {
    if rules[i].field !in fields {
      BrokenRuleFails(fields, rules, i);
    }
  }

  /* ---------- the account's defaults and checks ---------- */

  const ACCOUNT_DEFAULTS: seq<string> := ["created_at", "updated_at", "credentials", "extra", "concurrency", "priority",
                                          "rate_multiplier", "status", "auto_pause_on_expired", "schedulable"]

  const ACCOUNT_REQUIRED: seq<string> := ["created_at", "updated_at", "name", "platform", "type", "credentials",
                                          "extra", "concurrency", "priority", "rate_multiplier", "status",
                                          "auto_pause_on_expired", "schedulable"]

  // The first four come from generators that may not be set up; the others are constants.
  function AccountDefaults(generated: string -> Option<string>, constant: string -> string): (defaults: seq<Default>)
    ensures |defaults| == |ACCOUNT_DEFAULTS|
    ensures forall j :: 0 <= j < |defaults| ==> defaults[j].field == ACCOUNT_DEFAULTS[j]
  {
    seq(|ACCOUNT_DEFAULTS|, j requires 0 <= j < |ACCOUNT_DEFAULTS| =>
      var f := ACCOUNT_DEFAULTS[j]; Default(f, if j < 4 then generated(f) else Some(constant(f))))
  }

  lemma AccountDefaultsExactly(generated: string -> Option<string>, constant: string -> string)
    ensures forall d :: d in AccountDefaults(generated, constant) ==>
              d.value == if d.field in {"created_at", "updated_at", "credentials", "extra"}
                         then generated(d.field) else Some(constant(d.field))
  {
    var defaults := AccountDefaults(generated, constant);
    forall j | 0 <= j < |defaults|
      ensures defaults[j].field in {"created_at", "updated_at", "credentials", "extra"} <==> j < 4
    {
      assert ACCOUNT_DEFAULTS[0] == "created_at" && ACCOUNT_DEFAULTS[1] == "updated_at";
      assert ACCOUNT_DEFAULTS[2] == "credentials" && ACCOUNT_DEFAULTS[3] == "extra";
    }
  }

  // Every required field, and the one optional field that has a validator; a field without one
  // takes any value.
  function AccountRules(valid: string -> string -> bool): (rules: seq<Rule>)
    ensures |rules| == |ACCOUNT_REQUIRED| + 1
    ensures forall i :: 0 <= i < |ACCOUNT_REQUIRED| ==> rules[i].field == ACCOUNT_REQUIRED[i] && rules[i].required
  {
    seq(|ACCOUNT_REQUIRED|, i requires 0 <= i < |ACCOUNT_REQUIRED| =>
      var f := ACCOUNT_REQUIRED[i]; Rule(f, true, v => !Validated(f) || valid(f)(v)))
    + [Rule("session_window_status", false, v => valid("session_window_status")(v))]
  }

  predicate Validated(field: string) {
    field == "name" || field == "platform" || field == "type" || field == "status"
  }

  // The place of a default's field among the required ones.
  function RequiredAt(j: nat): nat {
    if j < 2 then j else if j < 10 then j + 3 else 0
  }

  lemma EveryDefaultIsRequired(j: nat)
    requires j < |ACCOUNT_DEFAULTS|
    ensures RequiredAt(j) < |ACCOUNT_REQUIRED| && ACCOUNT_REQUIRED[RequiredAt(j)] == ACCOUNT_DEFAULTS[j]
  {
  }

  // An account that passes the check has all its required fields, and none of its defaults was
  // needed and missing: that Save drops the error of setting them lets nothing incomplete through.
  lemma AcceptedAccountIsComplete(fields: Fields, generated: string -> Option<string>, constant: string -> string,
                                  valid: string -> string -> bool)
    requires Check(Completed(fields, AccountDefaults(generated, constant)), AccountRules(valid)) == None
    ensures Reached(fields, AccountDefaults(generated, constant)) == AccountDefaults(generated, constant)
    ensures forall f :: f in ACCOUNT_REQUIRED ==> f in Completed(fields, AccountDefaults(generated, constant))
  {
    hide Completed, Reached, Check, AccountDefaults, AccountRules;
    var defaults, rules := AccountDefaults(generated, constant), AccountRules(valid);
    if |Reached(fields, defaults)| < |defaults| {
      var j := |Reached(fields, defaults)|;
      EveryDefaultIsRequired(j);
      MissingDefaultRejected(fields, defaults, rules, RequiredAt(j));
    }
    assert defaults[..|defaults|] == defaults;
    forall f | f in ACCOUNT_REQUIRED ensures f in Completed(fields, defaults) {
      var i :| 0 <= i < |ACCOUNT_REQUIRED| && ACCOUNT_REQUIRED[i] == f;
      PassMeansSet(Completed(fields, defaults), rules, i);
    }
  }

  // The check reports the first rule that is broken, and how.
  lemma {:induction false} CheckExactly(fields: Fields, rules: seq<Rule>, i: nat)
    requires i < |rules| && forall j :: 0 <= j < i ==> Broken(rules[j], fields) == None
    ensures rules[i].field !in fields && rules[i].required ==> Check(fields, rules) == Some(Missing(rules[i].field))
    ensures rules[i].field in fields && !rules[i].valid(fields[rules[i].field]) ==>
              Check(fields, rules) == Some(Invalid(rules[i].field))
  {
    if i > 0 {
      assert rules[0] == rules[..i][0];
      CheckExactly(fields, rules[1..], i - 1);
    }
  }

  lemma {:induction false} PassExactly(fields: Fields, rules: seq<Rule>)
    ensures Check(fields, rules) == None <==> forall i :: 0 <= i < |rules| ==> Broken(rules[i], fields) == None
  {
    hide Broken;
    if rules != [] {
      PassExactly(fields, rules[1..]);
      assert forall i :: 0 < i < |rules| ==> rules[i] == rules[1..][i - 1];
      assert forall i :: 0 <= i < |rules| - 1 ==> rules[1..][i] == rules[i + 1];
    }
  }

  // An account passes its check exactly if its thirteen required fields are there and the five
  // that have validators satisfy them, the session window's status only if it is set.
  lemma AccountPassesExactly(fields: Fields, valid: string -> string -> bool)
    ensures Check(fields, AccountRules(valid)) == None <==>
            && (forall f :: f in ACCOUNT_REQUIRED ==> f in fields)
            && ValidIn(fields, valid, "name") && ValidIn(fields, valid, "platform")
            && ValidIn(fields, valid, "type") && ValidIn(fields, valid, "status")
            && ValidIn(fields, valid, "session_window_status")
  {
    hide Check, AccountRules, ValidIn, Broken;
    PassExactly(fields, AccountRules(valid));
    var rules := AccountRules(valid);
    forall i | 0 <= i < |rules| ensures BreaksRule(fields, valid, i) <==> Broken(rules[i], fields).Some? {
    }
    if Check(fields, rules) == None {
      forall i | 0 <= i < |rules| ensures !BreaksRule(fields, valid, i) {
        assert Broken(rules[i], fields) == None;
      }
      PassedAccount(fields, valid);
    } else if forall f :: f in ACCOUNT_REQUIRED ==> f in fields {
      var i :| 0 <= i < |rules| && Broken(rules[i], fields) != None;
      FailedAccount(fields, valid, i);
    }
  }

  // The field is not set, or its value is valid.
  predicate ValidIn(fields: Fields, valid: string -> string -> bool, field: string) {
    field in fields ==> valid(field)(fields[field])
  }

  predicate BreaksRule(fields: Fields, valid: string -> string -> bool, i: nat)
    requires i < |AccountRules(valid)|
  {
    Broken(AccountRules(valid)[i], fields).Some?
  }

  lemma PassedAccount(fields: Fields, valid: string -> string -> bool)
    requires forall i :: 0 <= i < |AccountRules(valid)| ==> !BreaksRule(fields, valid, i)
    ensures forall f :: f in ACCOUNT_REQUIRED ==> f in fields
    ensures ValidIn(fields, valid, "name") && ValidIn(fields, valid, "platform")
    ensures ValidIn(fields, valid, "type") && ValidIn(fields, valid, "status")
    ensures ValidIn(fields, valid, "session_window_status")
  {
    hide AccountRules;
    RulesOfAccount(valid);
    NamesOfRequired();
    forall f | f in ACCOUNT_REQUIRED ensures f in fields {
      var i :| 0 <= i < |ACCOUNT_REQUIRED| && ACCOUNT_REQUIRED[i] == f;
      assert !BreaksRule(fields, valid, i);
    }
    assert !BreaksRule(fields, valid, 2) && !BreaksRule(fields, valid, 3) && !BreaksRule(fields, valid, 4);
    assert !BreaksRule(fields, valid, 10) && !BreaksRule(fields, valid, 13);
  }

  lemma FailedAccount(fields: Fields, valid: string -> string -> bool, i: nat)
    requires i < |AccountRules(valid)| && BreaksRule(fields, valid, i)
    requires forall f :: f in ACCOUNT_REQUIRED ==> f in fields
    ensures || !ValidIn(fields, valid, "name") || !ValidIn(fields, valid, "platform")
            || !ValidIn(fields, valid, "type") || !ValidIn(fields, valid, "status")
            || !ValidIn(fields, valid, "session_window_status")
  {
    hide AccountRules;
    RulesOfAccount(valid);
    NamesOfRequired();
    if i < 13 {
      assert ACCOUNT_REQUIRED[i] in ACCOUNT_REQUIRED;
    }
  }

  lemma RulesOfAccount(valid: string -> string -> bool)
    ensures forall i, v :: 0 <= i < |ACCOUNT_REQUIRED| ==>
              (AccountRules(valid)[i].valid(v) <==> (Validated(ACCOUNT_REQUIRED[i]) ==> valid(ACCOUNT_REQUIRED[i])(v)))
    ensures var last := AccountRules(valid)[13];
      last.field == "session_window_status" && !last.required
      && forall v :: last.valid(v) <==> valid("session_window_status")(v)
  {
  }

  lemma NamesOfRequired()
    ensures |ACCOUNT_REQUIRED| == 13
    ensures ACCOUNT_REQUIRED[2] == "name" && ACCOUNT_REQUIRED[3] == "platform"
    ensures ACCOUNT_REQUIRED[4] == "type" && ACCOUNT_REQUIRED[10] == "status"
  {
  }

  // The position of the first builder whose check fails; their number if there is none.
  function FirstRejected(all: seq<Fields>, rules: seq<Rule>): (k: nat)
    ensures k <= |all|
  {
    if all == [] || Check(all[0], rules).Some? then 0 else 1 + FirstRejected(all[1..], rules)
  }

  lemma {:induction false} FirstRejectedIs(all: seq<Fields>, rules: seq<Rule>, k: nat)
    requires k <= |all|
    ensures k == FirstRejected(all, rules) <==>
            (k < |all| ==> Check(all[k], rules).Some?) && forall j :: 0 <= j < k ==> Check(all[j], rules) == None
  {
    hide Check;
    if all != [] && Check(all[0], rules) == None && k > 0 {
      FirstRejectedIs(all[1..], rules, k - 1);
      assert forall j :: 0 < j <= k ==> j < |all| ==> all[j] == all[1..][j - 1];
      assert forall j :: 0 <= j < k - 1 ==> all[1..][j] == all[j + 1];
    }
  }

  /* ---------- the chain ---------- */

  // The row of one account in the statement; the database fills in the id.
  datatype Spec = Spec(fields: Fields, id: Option<int>)

  // The statement fails as a whole, or tells the id of each row.
  datatype Answer = Failed(text: string) | Inserted(ids: nat -> Option<int>)

  class Database {
    const answer: seq<Fields> -> Answer
    var statements: seq<seq<Fields>>

    constructor (answer: seq<Fields> -> Answer)
      ensures this.answer == answer && statements == []
    {
      this.answer := answer;
      statements := [];
    }
  }

  class Node {
    const fields: Fields
    var id: int

    constructor (fields: Fields)
      ensures this.fields == fields && id == 0
    {
      this.fields, id := fields, 0;
    }
  }

  // A builder's mutation. Once it is done it points at the id of its node.
  class Mutation {
    var fields: Fields
    var node: Node?
    var done: bool

    constructor (fields: Fields)
      ensures this.fields == fields && node == null && !done
    {
      this.fields, node, done := fields, null, false;
    }
  }

  function FieldsOf(builders: seq<Mutation>): (all: seq<Fields>)
    reads builders
    ensures |all| == |builders| && forall i :: 0 <= i < |all| ==> all[i] == builders[i].fields
  {
    seq(|builders|, i requires 0 <= i < |builders| reads builders => builders[i].fields)
  }

  function SpecFields(specs: seq<Spec>): (all: seq<Fields>)
    ensures |all| == |specs| && forall i :: 0 <= i < |all| ==> all[i] == specs[i].fields
  {
    seq(|specs|, i requires 0 <= i < |specs| => specs[i].fields)
  }

  twostate predicate Untouched(builders: seq<Mutation>)
    reads builders
  {
    forall m <- builders :: m.done == old(m.done) && m.node == old(m.node) && m.fields == old(m.fields)
  }

  // One statement for all rows.
  method BatchCreate(db: Database, specs: array<Spec>) returns (error: Option<Error>)
    modifies db, specs
    ensures db.statements == old(db.statements) + [SpecFields(old(specs[..]))]
    ensures SpecFields(specs[..]) == SpecFields(old(specs[..]))
    ensures match db.answer(SpecFields(old(specs[..])))
            case Failed(text) => error == Some(Refused(text))
            case Inserted(ids) => error == None && forall i :: 0 <= i < specs.Length ==> specs[i].id == ids(i)
  {
    var rows := SpecFields(specs[..]);
    db.statements := db.statements + [rows];
    match db.answer(rows) {
      case Failed(text) =>
        return Some(Refused(text));
      case Inserted(ids) =>
        for i := 0 to specs.Length
          invariant db.statements == old(db.statements) + [rows]
          invariant forall j :: 0 <= j < specs.Length ==> specs[j].fields == old(specs[j].fields)
          invariant forall j :: 0 <= j < i ==> specs[j].id == ids(j)
        {
          specs[i] := specs[i].(id := ids(i));
        }
        return None;
    }
  }

  function IdOf(answer: Answer, i: nat): int {
    match answer
    case Failed(_) => 0
    case Inserted(ids) => if ids(i).Some? then ids(i).value else 0
  }

  // The rows of the statement: those prepared before builder i, then the builders from i on.
  function Rows(specs: seq<Spec>, all: seq<Fields>, i: nat): seq<Fields>
    requires i <= |specs| && i <= |all|
  {
    SpecFields(specs[..i]) + all[i..]
  }

  // What the chain from builder i on returns: the first failing check, or the database's answer.
  function ChainError(all: seq<Fields>, i: nat, rules: seq<Rule>, answer: Answer): Option<Error>
    requires i <= |all|
  {
    var k := i + FirstRejected(all[i..], rules);
    if k < |all| then Check(all[k], rules)
    else if answer.Failed? then Some(Refused(answer.text))
    else None
  }

  predicate AllPass(all: seq<Fields>, i: nat, rules: seq<Rule>)
    requires i <= |all|
  {
    i + FirstRejected(all[i..], rules) == |all|
  }

  lemma ChainStep(all: seq<Fields>, i: nat, rules: seq<Rule>, answer: Answer)
    requires i < |all|
    ensures Check(all[i], rules).Some?
        ==> !AllPass(all, i, rules) && ChainError(all, i, rules, answer) == Check(all[i], rules)
    ensures Check(all[i], rules) == None ==>
              && (AllPass(all, i, rules) <==> AllPass(all, i + 1, rules))
              && ChainError(all, i, rules, answer) == ChainError(all, i + 1, rules, answer)
    ensures AllPass(all, |all|, rules)
    ensures ChainError(all, |all|, rules, answer) == if answer.Failed? then Some(Refused(answer.text)) else None
  {
    hide Check;
    assert all[i..][1..] == all[i + 1..];
  }

  lemma RowsStep(specs: seq<Spec>, all: seq<Fields>, i: nat)
    requires i < |specs| == |all|
    ensures Rows(specs[i := Spec(all[i], None)], all, i + 1) == Rows(specs, all, i)
    ensures i + 1 == |all| ==> SpecFields(specs[i := Spec(all[i], None)]) == Rows(specs, all, i)
  {
    var after := specs[i := Spec(all[i], None)];
    assert after[..i + 1] == specs[..i] + [Spec(all[i], None)];
    assert all[i..] == [all[i]] + all[i + 1..];
  }

  // Builder j is done, and node j is its account.
  ghost predicate Created(builders: seq<Mutation>, nodes: array<Node?>, i: nat, j: nat, answer: Answer)
    requires i <= j < |builders| == nodes.Length
    reads builders, nodes, if nodes[j] != null then {nodes[j]} else {}
  {
    && builders[j].done
    && nodes[j] != null && nodes[j].fields == builders[j].fields && nodes[j].id == IdOf(answer, j)
    && ((forall l :: i <= l < j ==> builders[l] != builders[j]) ==> builders[j].node == nodes[j])
  }

  // The mutation points at the id of its node, which the database may have chosen.
  method Finish(mutation: Mutation, node: Node, id: Option<int>)
    requires node.id == 0
    modifies mutation, node
    ensures mutation.done && mutation.node == node && mutation.fields == old(mutation.fields)
    ensures node.id == if id.Some? then id.value else 0
  {
    mutation.node := node;
    if id.Some? {
      node.id := id.value;
    }
    mutation.done := true;
  }

  // The mutator of builder i, with the builders after it.
  method Mutate(i: nat, builders: seq<Mutation>, nodes: array<Node?>, specs: array<Spec>, db: Database,
    rules: seq<Rule>)
    returns (error: Option<Error>)
    requires i < |builders| == nodes.Length == specs.Length
    modifies db, nodes, specs, builders
    ensures FieldsOf(builders) == old(FieldsOf(builders))
    ensures forall j :: 0 <= j < i ==> nodes[j] == old(nodes[j])
    ensures
      var all := old(FieldsOf(builders));
      var rows := Rows(old(specs[..]), all, i);
      && error == ChainError(all, i, rules, db.answer(rows))
      && db.statements == old(db.statements) + (if AllPass(all, i, rules) then [rows] else [])
      && (error == None ==> forall j :: 0 <= j < specs.Length ==> IdSet(specs[j], db.answer(rows), j))
      && (error == None ==> forall j :: i <= j < |builders| ==> Created(builders, nodes, i, j, db.answer(rows)))
    ensures error == None ==> forall j :: i <= j < |builders| ==> fresh(nodes[j])
    ensures error.Some? ==> Untouched(builders)
    decreases |builders| - i
  {
    hide Check, FirstRejected, FieldsOf, SpecFields, ChainError, AllPass, Rows;
    var mutation := builders[i];
    ghost var all := FieldsOf(builders);
    ghost var rows := Rows(specs[..], all, i);
    ghost var was := specs[..];
    ChainStep(all, i, rules, db.answer(rows));
    RowsStep(specs[..], all, i);
    error := Check(mutation.fields, rules);
    if error.Some? {
      return;
    }
    var node := new Node(mutation.fields);
    nodes[i], specs[i] := node, Spec(mutation.fields, None);
    assert specs[..] == was[i := Spec(all[i], None)];
    if i < |builders| - 1 {
      error := Mutate(i + 1, builders, nodes, specs, db, rules);
    } else {
      error := BatchCreate(db, specs);
    }
    if error.Some? {
      return;
    }
    label Unwinding:
    Finish(mutation, node, specs[i].id);
    forall j | i < j < |builders| ensures Created(builders, nodes, i, j, db.answer(rows)) {
      assert old@Unwinding(Created(builders, nodes, i + 1, j, db.answer(rows)));
      assert nodes[j] != node;
    }
  }

  ghost predicate IdSet(spec: Spec, answer: Answer, j: nat) {
    answer.Inserted? && spec.id == answer.ids(j)
  }

  /* ---------- saving ---------- */

  datatype Result = Ok(nodes: seq<Node?>) | Err(error: Error)

  // The values the builders have once their defaults are set.
  function AllCompleted(all: seq<Fields>, defaults: seq<Default>): (r: seq<Fields>)
    ensures |r| == |all| && forall i :: 0 <= i < |r| ==> r[i] == Completed(all[i], defaults)
  {
    seq(|all|, i requires 0 <= i < |all| => Completed(all[i], defaults))
  }

  method SetDefaults(builders: seq<Mutation>, defaults: seq<Default>)
    modifies builders
    ensures FieldsOf(builders) == AllCompleted(old(FieldsOf(builders)), defaults)
    ensures forall m <- builders :: m.done == old(m.done) && m.node == old(m.node)
  {
    hide Completed;
    for i := 0 to |builders|
      invariant forall m <- builders :: m.done == old(m.done) && m.node == old(m.node)
      invariant forall m <- builders ::
        m.fields == if m in builders[..i] then Completed(old(m.fields), defaults) else old(m.fields)
    {
      var m := builders[i];
      assert builders[..i + 1] == builders[..i] + [m];
      CompletedTwice(old(m.fields), defaults);
      m.fields := Completed(m.fields, defaults);
    }
    assert builders[..|builders|] == builders;
    assert forall i :: 0 <= i < |builders| ==> builders[i] in builders;
  }

  // The statement is made exactly once if there is a builder and every check passes, with all
  // rows in the builders' order, and otherwise not at all. Either it succeeds, every builder is
  // done and its node carries its values and its id, or none is done and the error is returned.
  method Save(db: Database, err: Option<Error>, builders: seq<Mutation>, defaults: seq<Default>, rules: seq<Rule>)
    returns (result: Result)
    modifies db, builders
    ensures err.Some? ==> result == Err(err.value) && db.statements == old(db.statements) && Untouched(builders)
    ensures err == None ==>
      var all := AllCompleted(old(FieldsOf(builders)), defaults);
      var error := if builders == [] then None else ChainError(all, 0, rules, db.answer(all));
      && FieldsOf(builders) == all
      && db.statements == old(db.statements) + (if builders != [] && AllPass(all, 0, rules) then [all] else [])
      && (if error.Some? then result == Err(error.value) else result.Ok? && |result.nodes| == |builders|)
    ensures result.Err? ==> forall m <- builders :: m.done == old(m.done) && m.node == old(m.node)
    ensures result.Ok? ==> forall j :: 0 <= j < |builders| ==>
      fresh(result.nodes[j]) && Saved(builders, result.nodes, j, db.answer(FieldsOf(builders)))
  {
    if err.Some? {
      return Err(err.value);
    }
    hide Completed, FieldsOf, AllCompleted, ChainError, AllPass, SpecFields, Rows, Saved;
    SetDefaults(builders, defaults);
    if builders == [] {
      return Ok([]);
    }
    result := SaveChain(db, builders, rules);
  }

  // Builder j is done, and node j is its account.
  ghost predicate Saved(builders: seq<Mutation>, nodes: seq<Node?>, j: nat, answer: Answer)
    requires j < |builders|
    reads builders, nodes
  {
    && |nodes| == |builders|
    && builders[j].done
    && nodes[j] != null && nodes[j].fields == builders[j].fields && nodes[j].id == IdOf(answer, j)
    && ((forall l :: 0 <= l < j ==> builders[l] != builders[j]) ==> builders[j].node == nodes[j])
  }

  // Makes the chain and calls the first mutator.
  method SaveChain(db: Database, builders: seq<Mutation>, rules: seq<Rule>) returns (result: Result)
    requires builders != []
    modifies db, builders
    ensures
      var all := old(FieldsOf(builders));
      var error := ChainError(all, 0, rules, db.answer(all));
      && FieldsOf(builders) == all
      && db.statements == old(db.statements) + (if AllPass(all, 0, rules) then [all] else [])
      && (if error.Some? then result == Err(error.value) else result.Ok? && |result.nodes| == |builders|)
    ensures result.Err? ==> Untouched(builders)
    ensures result.Ok? ==> forall j :: 0 <= j < |builders| ==>
      fresh(result.nodes[j]) && Saved(builders, result.nodes, j, db.answer(FieldsOf(builders)))
  {
    hide FieldsOf, ChainError, AllPass, SpecFields, Rows;
    var n := |builders|;
    var specs := new Spec[n];
    var nodes := new Node?[n];
    ghost var all := FieldsOf(builders);
    AllRows(specs[..], all);
    var error := Mutate(0, builders, nodes, specs, db, rules);
    if error.Some? {
      return Err(error.value);
    }
    forall j | 0 <= j < n ensures Saved(builders, nodes[..], j, db.answer(all)) {
      assert Created(builders, nodes, 0, j, db.answer(all));
    }
    return Ok(nodes[..]);
  }

  lemma AllRows(specs: seq<Spec>, all: seq<Fields>)
    ensures Rows(specs, all, 0) == all
  {
    assert all[0..] == all;
  }

  // The whole chain, told by its parts: the statement is made exactly when all checks pass; the
  // error is that of the first builder that fails its check, or the database's.
  lemma ChainExactly(all: seq<Fields>, rules: seq<Rule>, answer: Answer)
    ensures AllPass(all, 0, rules) <==> forall j :: 0 <= j < |all| ==> Check(all[j], rules) == None
    ensures ChainError(all, 0, rules, answer) == None <==> AllPass(all, 0, rules) && answer.Inserted?
    ensures forall k ::
              0 <= k < |all| && Check(all[k], rules).Some? && (forall j :: 0 <= j < k ==> Check(all[j], rules) == None)
              ==> ChainError(all, 0, rules, answer) == Check(all[k], rules)
  {
    hide Check, FirstRejected;
    assert all[0..] == all;
    FirstRejectedIs(all, rules, |all|);
    FirstRejectedIs(all, rules, FirstRejected(all, rules));
    forall k | 0 <= k < |all| && Check(all[k], rules).Some? && forall j :: 0 <= j < k ==> Check(all[j], rules) == None
      ensures k == FirstRejected(all, rules)
    {
      FirstRejectedIs(all, rules, k);
    }
  }
}