/** What every handler receives: the request, the per-request attributes, the shared builder. */
module Input {
  import opened Prompts
  import opened Routing
  import opened Responses

  /** Request attributes: the only entry the skill uses is the prompt table under `PromptsKey`. */
  type Attributes = map<string, PromptTable>

  const PromptsKey: string := "_"

  class HandlerInput {
    const request: Request
    var requestAttributes: Attributes
    const responseBuilder: ResponseBuilder

    /** A fresh request cycle: attributes start empty and so does the response. */
    constructor (request: Request)
      ensures this.request == request && requestAttributes == map[]
      ensures fresh(responseBuilder) && responseBuilder.Built() == EmptyResponse
    {
      this.request := request;
      requestAttributes := map[];
      responseBuilder := new ResponseBuilder();
    }
  }
}
