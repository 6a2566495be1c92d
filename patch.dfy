/**
 * `patchHandler` and `createPatchOperation`. The handler is the same code as
 * `putHandler`: both send `update` with the merged filter, so a partial or a
 * full update depends only on what the validator lets through.
 */
module PatchOperation {
  import opened Values
  import opened Store
  import opened Types
  import opened Hooks
  import opened PutOperation

  /** `createPatchOperation`: the declared fields, tagged `patch`. */
  function CreatePatchOperation(fields: MutationFields): (op: Operation)
    ensures op.Base() == fields.base
    ensures op.Patch? && op.mutationFields == fields
  {
    Patch(fields)
  }

  /** `patchHandler`: specified by the same run as `putHandler`. */
  method PatchHandler(model: string, fields: MutationFields, request: Request, uriVariables: UriVariables, context: Context)
    returns (reply: Reply)
    modifies context.db
    ensures var run := UpdateRun(model, fields, request.body, uriVariables, context, old(context.db.tables));
      reply == run.reply && context.db.tables == run.tables && context.db.calls == old(context.db.calls) + CallsOf(run.steps)
  {
    var data := request.body;
    if fields.inputValidation.Some? {
      var parsed := fields.inputValidation.value(request.body);
      if parsed.Threw? {
        return Raised(parsed.error);
      }
      if Truthy(parsed.value) {
        data := parsed.value;
      }
    }
    if fields.onPrePersist.Some? {
      var outcome := RunDataHook(fields.onPrePersist.value, DataEvent(data, uriVariables, context));
      if outcome.Threw? {
        return Raised(outcome.error);
      }
      data := outcome.value;
    }
    var call := Update(model, data, EffectiveWhere(uriVariables, fields.where), fields.select);
    reply := CallAndPost(call, fields.onPostPersist, uriVariables, context);
  }
}
