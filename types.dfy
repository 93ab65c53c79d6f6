/** The records of the configuration tool: algorithms made of parameters,
    sub-parameters and their validation configs, workflows, scraper mappings
    and global (patient-context) parameters. The TypeScript field `type` is
    called `kind` here and `label` is called `labelText`, since both are Dafny
    keywords. */
module Types {
  import opened Wrappers

  /** `ParameterConfig.type`: the six validation kinds. */
  datatype ValidationType = Range | Exact | Contains | Boolean | List | Date

  /** `ParameterDefinition.type`: the same kinds without `date`. */
  type DefinitionType = t: ValidationType | t != Date witness Range

  /** `Algorithm.action`: what happens once every check has passed. */
  datatype Action = Validate | Expert | Conditional

  /** `Algorithm.id`: a number or a string (a MongoDB ObjectId). */
  datatype AlgorithmId = NumId(n: int) | StrId(s: string)

  /** A JavaScript value as stored in `ParameterConfig.value` and in
      `GlobalParameterValue.value`. Every number that the components store
      there is an integer (a `parseInt` result or the default age 30). */
  datatype Value = VStr(s: string) | VNum(n: int) | VBool(b: bool)

  /** JavaScript truthiness: `""`, `0` and `false` are falsy. */
  predicate Truthy(v: Value) {
    match v
    case VStr(s) => s != ""
    case VNum(n) => n != 0
    case VBool(b) => b
  }

  /** Creation and modification dates, as opaque instants. */
  type Timestamp = nat

  /** A validation rule. Every field but the kind is optional; None is an
      absent key. */
  datatype ParameterConfig = ParameterConfig(
    kind: ValidationType,
    min: Option<real>,
    max: Option<real>,
    value: Option<Value>,
    options: Option<seq<string>>,
    required: Option<bool>,
    unit: Option<string>)

  datatype SubParameter = SubParameter(param: string, config: Option<ParameterConfig>)

  datatype Parameter = Parameter(name: string, labelText: string, subParameters: seq<SubParameter>)

  datatype GlobalParameterValue = GlobalParameterValue(name: string, value: Value)

  datatype Algorithm = Algorithm(
    id: Option<AlgorithmId>,
    name: string,
    description: string,
    parameters: seq<Parameter>,
    action: Action,
    globalParameters: seq<GlobalParameterValue>,
    created: Timestamp,
    lastModified: Timestamp)

  datatype ParameterDefinition = ParameterDefinition(
    name: string,
    labelText: string,
    kind: DefinitionType,
    defaultConfig: ParameterConfig,
    isGlobal: bool,
    category: string)

  /** A workflow: an ordered list of algorithm ids. An entry is the result of
      `parseInt`, so it may be NaN, written None. */
  datatype Workflow = Workflow(
    id: int,
    name: string,
    algorithmOrder: seq<Option<int>>,
    created: Timestamp)

  /** A scraper mapping from a parameter name to a CSS selector. */
  datatype Mapping = Mapping(param: string, selector: string)

  /** `GlobalParameter.type`. */
  datatype GlobalKind = RangeInput | ListInput | TextInput

  datatype GlobalParameter = GlobalParameter(
    name: string,
    labelText: string,
    kind: GlobalKind,
    defaultValue: Value,
    options: Option<seq<string>>,
    min: Option<real>,
    max: Option<real>,
    unit: Option<string>)

  /** What the new-algorithm form hands to the library. */
  datatype AlgorithmSubmission = AlgorithmSubmission(name: string, template: string, description: string)

  /** What the new-workflow form hands to the library. */
  datatype WorkflowSubmission = WorkflowSubmission(name: string, algorithmOrder: seq<Option<int>>)
}
