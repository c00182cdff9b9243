/**
 The bodies that reach the Codex transport.  The client marshals a request with an
 input list, and the transport fills in what the Codex backend demands before
 anything else looks at the body.
 */
module CodexBody {
  import opened Continuation
  import opened Reassembly

  const DEFAULT_MODEL := "gpt-5.4"
  const DEFAULT_INSTRUCTIONS := "You are a helpful assistant."

  /**
   mutateCodexBody.  strip stands for what it does to the remaining fields: store
   is switched off and the parameters the backend does not take are deleted.
   */
  function MutatedBody(body: Body, strip: string -> string): Body {
    if body.Undecodable? then body
    else Body(if body.model == "" then DEFAULT_MODEL else body.model,
              if Trim(body.instructions) == "" then DEFAULT_INSTRUCTIONS else body.instructions,
              body.input, strip(body.rest))
  }

  method MutateCodexBody(body: Body, strip: string -> string) returns (payload: Body)
    ensures payload == MutatedBody(body, strip)
  {
    payload := body;
    if payload.Undecodable? {
      return;
    }
    if payload.model == "" {
      payload := payload.(model := DEFAULT_MODEL);
    }
    if Trim(payload.instructions) == "" {
      payload := payload.(instructions := DEFAULT_INSTRUCTIONS);
    }
    payload := payload.(rest := strip(payload.rest));
  }

  /** A body the program sends: a marshalled request, mutated. */
  ghost predicate FromProgram(body: Body) {
    exists model, instructions, input, rest, strip :: body == MutatedBody(Body(model, instructions, input, rest), strip)
  }

  /** After the mutation a request has a fingerprint; before it, only one that names a model has. */
  lemma MutatedBodiesHaveFingerprints(body: Body, strip: string -> string)
    ensures FingerprintOf(MutatedBody(body, strip)).Some? <==> body.Body?
    ensures FingerprintOf(body).Some? <==> body.Body? && body.model != ""
  {
  }
}
