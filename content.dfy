/** The input record both workflows and all their entry steps declare:
    `{ content: string, type: 'article' | 'blog' | 'social' }`, where a missing
    `type` defaults to `'article'`. */
module Content {

  datatype Option<T> = None | Some(value: T)

  /** The `type` enum. */
  datatype ContentType = Article | Blog | Social

  /** The workflow input as a caller supplies it: `type` may be absent. */
  datatype WorkflowInput = WorkflowInput(content: string, contentType: Option<ContentType>)

  /** The input as a step sees it once the schema default has been applied. */
  datatype StepInput = StepInput(content: string, contentType: ContentType)

  /** The string value of each enum member, as it appears in the output records. */
  function TypeName(t: ContentType): (name: string)
    ensures name == "article" <==> t == Article
    ensures name == "blog" <==> t == Blog
    ensures name == "social" <==> t == Social
  {
    match t
    case Article => "article"
    case Blog => "blog"
    case Social => "social"
  }

  /** Applying the schema default: `type` becomes `article` when absent and is
      kept otherwise; `content` is untouched. */
  function WithDefaults(input: WorkflowInput): (x: StepInput)
    ensures x.content == input.content
    ensures input.contentType == None ==> x.contentType == Article
    ensures input.contentType != None ==> x.contentType == input.contentType.value
  {
    StepInput(input.content, if input.contentType.Some? then input.contentType.value else Article)
  }
}
