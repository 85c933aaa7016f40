/** Process definitions, as services/platform-api/src/workflows/schemas.py stores them. */
module Workflow {
  import opened Common
  import opened Tree

  /** The value of `next` or of a branch: null, a string, or another JSON value, which a lookup in the step
      map rejects with `error`. */
  datatype Ref = NoRef | Name(id: string) | Other(truthy: bool, error: string)

  /** The keys of a step's configuration that the executor reads; a missing key is `None`. */
  datatype Config = Config(expression: Option<string>, operator: Option<string>, value: Option<Json>,
                           branches: Option<map<string, Ref>>, entries: seq<Entry>)

  datatype Step = Step(id: string, kind: string, config: Config, next: Ref, timeoutSeconds: int)

  predicate Truthy(ref: Ref) {
    match ref
    case NoRef => false
    case Name(id) => id != ""
    case Other(truthy, _) => truthy
  }
}
