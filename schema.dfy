/** The attribute table of the call-recording resource: for each attribute name, whether
    the caller must set it (Required), may set it (Optional) and whether the server may fill
    it in (Computed). */
module ResourceSchema {

  datatype Flags = Flags(required: bool, computed: bool, optional: bool)

  /** How an attribute takes part in the remote API. */
  datatype Role =
    | RequiredInput  // a key the caller must give (`call_sid`)
    | OptionalInput  // a parameter the caller may give (`path_account_sid`, `pause_behavior`)
    | ResponseOnly   // only ever returned by the server (`sid`, `price`, `revision`)

  /** The flags an attribute of a given role gets. */
  function Classify(role: Role): (f: Flags)
    ensures !(f.required && f.computed)
    ensures f.optional ==> f.computed
    ensures f.required != f.computed
    ensures f.required <==> role == RequiredInput
    ensures f.optional <==> role == OptionalInput
  {
    match role
    case RequiredInput => Flags(true, false, false)
    case OptionalInput => Flags(false, true, true)
    case ResponseOnly => Flags(false, true, false)
  }

  /** The attributes of the resource and their roles. */
  const Roles: map<string, Role> := map[
    "call_sid" := RequiredInput,
    "path_account_sid" := OptionalInput,
    "pause_behavior" := OptionalInput,
    "recording_status_callback" := OptionalInput,
    "sid" := ResponseOnly,
    "price" := ResponseOnly,
    "revision" := ResponseOnly
  ]

  /** The resource schema: every attribute with its flags. */
  function Schema(): (s: map<string, Flags>)
    ensures s.Keys == Roles.Keys
    ensures forall name :: name in s ==> !(s[name].required && s[name].computed)
  {
    map name | name in Roles :: Classify(Roles[name])
  }

  /** The flags the test table expects, attribute by attribute. */
  const Expected: map<string, Flags> := map[
    "call_sid" := Flags(true, false, false),
    "sid" := Flags(false, true, false),
    "path_account_sid" := Flags(false, true, true),
    "pause_behavior" := Flags(false, true, true),
    "price" := Flags(false, true, false),
    "revision" := Flags(false, true, false)
  ]

  /** Every attribute that both tables list has the expected flags. */
  predicate Conforms(schema: map<string, Flags>, expected: map<string, Flags>) {
    forall name :: name in schema && name in expected ==> schema[name] == expected[name]
  }

  /** Walk the schema and collect the attributes whose flags differ from the expected ones;
      attributes the expected table does not list are skipped. */
  method CheckSchema(schema: map<string, Flags>, expected: map<string, Flags>)
    returns (mismatched: set<string>)
    ensures forall name :: name in mismatched <==>
      name in schema && name in expected && schema[name] != expected[name]
    ensures mismatched == {} <==> Conforms(schema, expected)
  {
    mismatched := {};
    var remaining := schema.Keys;
    while remaining != {}
      invariant remaining <= schema.Keys
      invariant forall name :: name in mismatched <==>
        name in schema && name !in remaining && name in expected && schema[name] != expected[name]
      decreases remaining
    {
      var name :| name in remaining;
      if name in expected && schema[name] != expected[name] {
        mismatched := mismatched + {name};
      }
      remaining := remaining - {name};
    }
  }

  /** The schema agrees with the test table and contains `path_account_sid`. */
  lemma SchemaMatchesExpected()
    ensures Conforms(Schema(), Expected)
    ensures "path_account_sid" in Schema()
  {
    var schema := Schema();
    forall name | name in schema && name in Expected
      ensures schema[name] == Expected[name]
    {
      assert Roles[name] == (if name == "call_sid" then RequiredInput
        else if name == "path_account_sid" || name == "pause_behavior" then OptionalInput
        else ResponseOnly);
    }
  }

  /** `call_sid` is the only Required attribute and it is not Computed. */
  lemma OnlyCallSidRequired()
    ensures forall name :: name in Schema() ==> (Schema()[name].required <==> name == "call_sid")
    ensures !Schema()["call_sid"].computed
  {
  }

  /** Every attribute other than `call_sid` is Computed, and Optional implies Computed. */
  lemma ComputedUnlessRequired()
    ensures forall name :: name in Schema() && name != "call_sid" ==> Schema()[name].computed
    ensures forall name :: name in Schema() && Schema()[name].optional ==> Schema()[name].computed
  {
  }

  /** Of the attributes the test lists, only `path_account_sid` and `pause_behavior` are Optional. */
  lemma OptionalAmongExpected()
    ensures forall name :: name in Expected && name in Schema() ==>
      (Schema()[name].optional <==> name == "path_account_sid" || name == "pause_behavior")
  {
  }
}
