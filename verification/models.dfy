/** Machine-learning models on the client: the query that looks a trained
    model up, the pending record created before training, the launch request
    that trains it, and the result object built from a stored model. */
module Models {
  import opened Wrappers
  import opened Images

  datatype ModelError =
    | BadImage(name: string)   // `parse_image_name` raised
    | MissingId                // the stored model has no `_id`

  // ---------------------------------------------------------------------------
  // _fetch_model

  /** `_fetch_model`'s query: the input parameters encoded (JSON text, then
      URL-quoted, both done by `encode`) and the image name with its tag
      spelled out. */
  function FetchModelQuery(imageName: string, inputParameters: Json, encode: Json -> string)
    : (r: Result<map<string, string>, ModelError>)
    ensures r.Err? <==> ParseImageName(imageName).Err?
    ensures r.Err? ==> r.error == BadImage(imageName)
    ensures r.Ok? ==> r.value.Keys == {"inputParameters", "imageName"}
    ensures r.Ok? ==> r.value["inputParameters"] == encode(inputParameters)
    ensures r.Ok? ==> ParseImageName(r.value["imageName"]) == ParseImageName(imageName)
    ensures r.Ok? ==> ':' in r.value["imageName"]
  {
    match ParseImageName(imageName)
    case Err(_) => Err(BadImage(imageName))
    case Ok((repository, tag)) =>
      ParseImageNameInverse(repository, tag);
      assert ImageName(repository, tag)[|repository|] == ':';
      Ok(map["inputParameters" := encode(inputParameters), "imageName" := ImageName(repository, tag)])
  }

  /** `latest` is spelled out: a bare repository and its `:latest` name look up
      the same models. */
  lemma FetchModelQueryDefaultTag(repository: string, inputParameters: Json, encode: Json -> string)
    requires ':' !in repository
    ensures FetchModelQuery(repository, inputParameters, encode)
         == FetchModelQuery(ImageName(repository, DefaultTag), inputParameters, encode)
  {
    ParseImageNameInverse(repository, DefaultTag);
  }

  /** The model `_fetch_model` returns: the first of the store's results, or
      none when the reply has no results. `results` is the store's answer to
      the query. */
  function FetchModel(imageName: string, inputParameters: Json, encode: Json -> string,
                      results: map<string, string> -> Option<seq<Json>>)
    : (r: Result<Option<Json>, ModelError>)
    ensures r.Err? <==> FetchModelQuery(imageName, inputParameters, encode).Err?
    ensures r.Ok? ==> var found := results(FetchModelQuery(imageName, inputParameters, encode).value);
                      (r.value.None? <==> found.None? || |found.value| == 0)
                      && (r.value.Some? ==> r.value.value == found.value[0])
  {
    var query :- FetchModelQuery(imageName, inputParameters, encode);
    match results(query)
    case None => Ok(None)
    case Some(rs) => Ok(if |rs| < 1 then None else Some(rs[0]))
  }

  // ---------------------------------------------------------------------------
  // _create_pending_model

  /** The record posted before training: public, pending, with the input
      parameters, the image and the open notebook if there is one. */
  function PendingModelBody(imageName: string, inputParameters: Json, notebook: Option<string>)
    : (r: Result<map<string, Json>, ModelError>)
    ensures r.Err? <==> ParseImageName(imageName).Err?
    ensures r.Ok? ==> r.value.Keys == {"public", "properties", "input", "image", "notebooks"}
    ensures r.Ok? ==> r.value["public"] == JBool(true)
                      && r.value["properties"] == JObj(map["pending" := JBool(true)])
                      && r.value["input"] == JObj(map["parameters" := inputParameters])
    ensures r.Ok? ==> r.value["notebooks"] == JArr(if notebook.Some? then [JStr(notebook.value)] else [])
    ensures r.Ok? ==> ImageOf(r.value["image"]) == Some(ParseImageName(imageName).value)
  {
    match ParseImageName(imageName)
    case Err(_) => Err(BadImage(imageName))
    case Ok((repository, tag)) =>
      Ok(map["public" := JBool(true), "properties" := JObj(map["pending" := JBool(true)]),
             "input" := JObj(map["parameters" := inputParameters]), "image" := ImageJson(repository, tag),
             "notebooks" := JArr(if notebook.Some? then [JStr(notebook.value)] else [])])
  }

  /** The `{repository, tag}` document of an image. */
  function ImageJson(repository: string, tag: string): Json {
    JObj(map["repository" := JStr(repository), "tag" := JStr(tag)])
  }

  /** The image an `{repository, tag}` document names. */
  function ImageOf(j: Json): Option<(string, string)> {
    if j.JObj? && "repository" in j.fields && "tag" in j.fields && j.fields["repository"].JStr?
       && j.fields["tag"].JStr?
    then Some((j.fields["repository"].s, j.fields["tag"].s))
    else None
  }

  // ---------------------------------------------------------------------------
  // _submit_model

  /** The launch request `_submit_model` posts. The taskflow body names the
      taskflow class, the training ids and the image; the taskflow input
      names the trainings, the image, the run parameters and, optionally,
      the cluster. */
  datatype ModelLaunch = ModelLaunch(taskFlowClass: string, metaTrainingIds: seq<string>, metaImage: Json,
                                     inputType: string, trainings: seq<string>, image: Json,
                                     runParameters: map<string, Json>, cluster: Option<string>)

  const TaskFlowClass := "taskflows.OpenChemistryTaskFlow"

  /** `_submit_model`: run parameters default to empty; the cluster is named
      only when its id is truthy (given and not empty). */
  function SubmitModel(clusterId: Option<string>, modelId: string, imageName: string,
                       runParameters: Option<map<string, Json>>)
    : (r: Result<ModelLaunch, ModelError>)
    ensures r.Err? <==> ParseImageName(imageName).Err?
    ensures r.Ok? ==> r.value.taskFlowClass == TaskFlowClass && r.value.inputType == "training"
    ensures r.Ok? ==> r.value.metaTrainingIds == [modelId] && r.value.trainings == [modelId]
    ensures r.Ok? ==> r.value.runParameters == runParameters.GetOr(map[])
    ensures r.Ok? ==> (r.value.cluster.Some? <==> clusterId.Some? && |clusterId.value| > 0)
    ensures r.Ok? && r.value.cluster.Some? ==> r.value.cluster == clusterId
    ensures r.Ok? ==> ImageOf(r.value.image) == Some(ParseImageName(imageName).value)
                      && r.value.metaImage == r.value.image
  {
    match ParseImageName(imageName)
    case Err(_) => Err(BadImage(imageName))
    case Ok((repository, tag)) =>
      var image := ImageJson(repository, tag);
      Ok(ModelLaunch(TaskFlowClass, [modelId], image, "training", [modelId], image,
                     runParameters.GetOr(map[]),
                     if clusterId.Some? && |clusterId.value| > 0 then clusterId else None))
  }

  /** The pending record, the training launch and the lookup query agree on
      the image: the launch trains the image the pending record names, and
      the lookup's normalised name parses back to it. */
  lemma ModelImagesAgree(clusterId: Option<string>, modelId: string, imageName: string, inputParameters: Json,
                         notebook: Option<string>, runParameters: Option<map<string, Json>>, encode: Json -> string)
    requires ParseImageName(imageName).Ok?
    ensures PendingModelBody(imageName, inputParameters, notebook).Ok?
    ensures SubmitModel(clusterId, modelId, imageName, runParameters).Ok?
    ensures PendingModelBody(imageName, inputParameters, notebook).value["image"]
         == SubmitModel(clusterId, modelId, imageName, runParameters).value.image
    ensures var q := FetchModelQuery(imageName, inputParameters, encode);
            q.Ok? && ParseImageName(q.value["imageName"]).Ok?
            && ImageOf(SubmitModel(clusterId, modelId, imageName, runParameters).value.image)
               == Some(ParseImageName(q.value["imageName"]).value)
  {
  }

  // ---------------------------------------------------------------------------
  // _model_result

  /** The `properties.pending` path: the value when the properties are a
      dictionary holding it. */
  function PendingField(model: map<string, Json>): Option<Json> {
    if "properties" in model && model["properties"].JObj? && "pending" in model["properties"].fields
    then Some(model["properties"].fields["pending"])
    else None
  }

  /** The result object: the model's id and its properties (an empty
      dictionary when missing or `None`), and, for a pending model, the
      taskflow it waits for. */
  datatype ModelView = ModelView(id: Json, properties: Json, pending: bool, taskflowId: Option<Json>)

  /** `_model_result`: the model is wrapped as pending iff `properties.pending`
      is found and truthy; its taskflow id is `properties.taskFlowId` when
      present. */
  function ModelResult(model: map<string, Json>): (r: Result<ModelView, ModelError>)
    ensures r.Err? <==> "_id" !in model
    ensures r.Ok? ==> r.value.id == model["_id"]
    ensures r.Ok? ==> (r.value.pending <==> PendingField(model).Some? && Truthy(PendingField(model).value))
    ensures r.Ok? && ("properties" !in model || model["properties"] == JNull) ==> r.value.properties == JObj(map[])
    ensures r.Ok? && "properties" in model && model["properties"] != JNull ==>
              r.value.properties == model["properties"]
    ensures r.Ok? && !r.value.pending ==> r.value.taskflowId.None?
  {
    if "_id" !in model then Err(MissingId)
    else
      var props := if "properties" in model && model["properties"] != JNull then model["properties"] else JObj(map[]);
      var pending := PendingField(model).Some? && Truthy(PendingField(model).value);
      var taskflowId := if pending && "taskFlowId" in props.fields then Some(props.fields["taskFlowId"]) else None;
      Ok(ModelView(model["_id"], props, pending, taskflowId))
  }

  /** A model stored from the pending body is a pending result; one whose
      properties were replaced by results without the flag is not. */
  lemma PendingBodyIsPending(imageName: string, inputParameters: Json, notebook: Option<string>, id: Json,
                             results: map<string, Json>)
    requires PendingModelBody(imageName, inputParameters, notebook).Ok?
    requires "pending" !in results
    ensures var stored := PendingModelBody(imageName, inputParameters, notebook).value["_id" := id];
            ModelResult(stored).Ok? && ModelResult(stored).value.pending
            && !ModelResult(stored["properties" := JObj(results)]).value.pending
  {
  }

  // ---------------------------------------------------------------------------
  // ModelResult.properties

  /** The views a result has created so far, each an object number, and the
      number the next new object gets. */
  datatype Views = Views(created: map<string, nat>, next: nat)

  /** `ModelResult.properties`: the existing properties view, or a new one
      recorded for next time. */
  function PropertiesView(v: Views): (r: (nat, Views))
    ensures "properties" in r.1.created && r.1.created["properties"] == r.0
    ensures "properties" in v.created ==> r == (v.created["properties"], v)
    ensures "properties" !in v.created ==> r.0 == v.next && r.1.next == v.next + 1
    ensures forall k :: k in v.created ==> k in r.1.created && r.1.created[k] == v.created[k]
  {
    if "properties" in v.created then (v.created["properties"], v)
    else (v.next, Views(v.created["properties" := v.next], v.next + 1))
  }

  /** The properties view is created once and then reused: asking twice gives
      the same object and changes nothing the second time. */
  lemma PropertiesViewReused(v: Views)
    ensures var (first, after) := PropertiesView(v);
            PropertiesView(after) == (first, after)
  {
  }
}
