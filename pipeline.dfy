/**
 * The pipeline panel: the workers the server reports, the worker and
 * pipeline chosen among them, and the values of the chosen pipeline's
 * parameter form.
 */
module Pipelines {
  import opened Wrappers
  import opened Dicts
  import opened Forms

  datatype Pipeline = Pipeline(name: string, description: string, displayName: string, parameters: Dict<ServerField>)

  /** A worker; its pipeline table may be missing (`undefined` or `null`). */
  datatype Worker = Worker(pipelines: Option<Dict<Pipeline>>)

  type Workers = Dict<Worker>

  /** The pipeline `pipelineName` of worker `workerId`, when both exist. */
  function FindPipeline(workers: Workers, workerId: string, pipelineName: string): (r: Option<Pipeline>)
    ensures r.Some? <==>
              Get(workers, workerId).Some? && Get(workers, workerId).value.pipelines.Some? &&
              pipelineName in Keys(Get(workers, workerId).value.pipelines.value)
    ensures r.Some? ==> Get(Get(workers, workerId).value.pipelines.value, pipelineName) == r
  {
    match Get(workers, workerId)
    case None => None
    case Some(worker) =>
      match worker.pipelines
      case None => None
      case Some(pipelines) => Get(pipelines, pipelineName)
  }

  /** `pipelineParameters`: the parameters of the pipeline, or `{}` when there is no such pipeline. */
  function PipelineParameters(workers: Workers, workerId: string, pipelineName: string): (r: Dict<ServerField>)
    ensures FindPipeline(workers, workerId, pipelineName).None? ==> r == []
    ensures FindPipeline(workers, workerId, pipelineName).Some? ==> r == FindPipeline(workers, workerId, pipelineName).value.parameters
  {
    if workerId !in Keys(workers) then []
    else
      var worker := Get(workers, workerId).value;
      if worker.pipelines.None? || pipelineName !in Keys(worker.pipelines.value) then []
      else Get(worker.pipelines.value, pipelineName).value.parameters
  }

  /**
   * A worker and pipeline choice that do not belong together, as the status
   * panel's separate handlers can leave them, give no parameters.
   */
  lemma MismatchedChoiceHasNoParameters(workers: Workers, workerId: string, pipelineName: string)
    requires Get(workers, workerId).Some? && Get(workers, workerId).value.pipelines.Some?
    requires pipelineName !in Keys(Get(workers, workerId).value.pipelines.value)
    ensures PipelineParameters(workers, workerId, pipelineName) == []
  {
  }

  /** The keys of an object in order, or `'none'` when it has none: the first key, else `'none'`. */
  function FirstKeyOrNone<V>(d: Dict<V>): (r: string)
    ensures d != [] ==> r == d[0].0 && r in Keys(d)
    ensures d == [] ==> r == "none"
  {
    if |d| > 0 then d[0].0 else "none"
  }

  /**
   * The worker chosen when a new worker table arrives: the current one if it
   * is still listed, else the first listed worker, else `'none'`. The choice
   * is a listed worker exactly when some worker is listed.
   */
  function SelectWorker(workers: Workers, selected: string): (w: string)
    ensures selected in Keys(workers) ==> w == selected
    ensures selected !in Keys(workers) ==> w == FirstKeyOrNone(workers)
    ensures w in Keys(workers) <==> workers != []
    ensures workers == [] ==> w == "none"
  {
    if selected in Keys(workers) then selected else FirstKeyOrNone(workers)
  }

  /**
   * The pipeline chosen for worker `worker`: `'none'` when that worker is not
   * listed or has no pipeline table; else the current pipeline if the worker
   * has it, else the worker's first pipeline, else `'none'`.
   */
  function SelectPipeline(workers: Workers, worker: string, selected: string): (p: string)
    ensures (Get(workers, worker).None? || Get(workers, worker).value.pipelines.None?) ==> p == "none"
    ensures Get(workers, worker).Some? && Get(workers, worker).value.pipelines.Some? ==>
              var pipelines := Get(workers, worker).value.pipelines.value;
              (selected in Keys(pipelines) ==> p == selected) &&
              (selected !in Keys(pipelines) ==> p == FirstKeyOrNone(pipelines))
    ensures p == "none" || FindPipeline(workers, worker, p).Some?
  {
    match Get(workers, worker)
    case None => "none"
    case Some(w) =>
      match w.pipelines
      case None => "none"
      case Some(pipelines) => if selected in Keys(pipelines) then selected else FirstKeyOrNone(pipelines)
  }

  /** `total[name] = ...` for one field of the render reduce. */
  function MergeStep(total: Dict<string>, field: FormField, fieldValues: Dict<string>): Dict<string> {
    match Get(fieldValues, field.name)
    case Some(v) => Put(total, field.name, v)
    case None => if field.initial.Some? then Put(total, field.name, field.initial.value) else total
  }

  /** The form values the render reduce builds over `fields`, from `{}`. */
  function Merge(fields: seq<FormField>, fieldValues: Dict<string>): Dict<string> {
    if fields == [] then [] else MergeStep(Merge(fields[..|fields| - 1], fieldValues), fields[|fields| - 1], fieldValues)
  }

  function Names(fields: seq<FormField>): seq<string> {
    seq(|fields|, i requires 0 <= i < |fields| => fields[i].name)
  }

  /** The `initial` of the last field named `k` that has one. */
  function LastInitial(fields: seq<FormField>, k: string): Option<string> {
    if fields == [] then None
    else
      var f := fields[|fields| - 1];
      if f.name == k && f.initial.Some? then f.initial else LastInitial(fields[..|fields| - 1], k)
  }

  /**
   * The merged value of a name: the edited value when the name is a field's
   * and has been edited, else the initial value of the last field of that
   * name with one, else nothing.
   */
  lemma {:induction false} MergeLookup(fields: seq<FormField>, fieldValues: Dict<string>, k: string)
    ensures Get(Merge(fields, fieldValues), k) ==
              if k in Names(fields) && Get(fieldValues, k).Some? then Get(fieldValues, k) else LastInitial(fields, k)
  {
    if fields != [] {
      var prefix := fields[..|fields| - 1];
      var f := fields[|fields| - 1];
      var m := Merge(prefix, fieldValues);
      assert Merge(fields, fieldValues) == MergeStep(m, f, fieldValues);
      MergeLookup(prefix, fieldValues, k);
      MergeStepLookup(m, f, fieldValues, k);
      NamesLast(fields, k);
    }
  }

  lemma NamesLast(fields: seq<FormField>, k: string)
    requires fields != []
    ensures k in Names(fields) <==> k in Names(fields[..|fields| - 1]) || k == fields[|fields| - 1].name
  {
    assert Names(fields) == Names(fields[..|fields| - 1]) + [fields[|fields| - 1].name];
  }

  lemma MergeStepLookup(total: Dict<string>, field: FormField, fieldValues: Dict<string>, k: string)
    ensures Get(MergeStep(total, field, fieldValues), k) ==
              if k != field.name then Get(total, k)
              else if Get(fieldValues, k).Some? then Get(fieldValues, k)
              else if field.initial.Some? then field.initial
              else Get(total, k)
  {
  }

  /** With distinct field names, each field's value is its edit, else its initial value. */
  lemma MergeDistinct(fields: seq<FormField>, fieldValues: Dict<string>, i: nat)
    requires forall a, b :: 0 <= a < b < |fields| ==> fields[a].name != fields[b].name
    requires i < |fields|
    ensures var v := Get(Merge(fields, fieldValues), fields[i].name);
            v == if Get(fieldValues, fields[i].name).Some? then Get(fieldValues, fields[i].name) else fields[i].initial
  {
    MergeLookup(fields, fieldValues, fields[i].name);
    assert Names(fields)[i] == fields[i].name;
    LastInitialDistinct(fields, i);
  }

  lemma {:induction false} LastInitialDistinct(fields: seq<FormField>, i: nat)
    requires forall a, b :: 0 <= a < b < |fields| ==> fields[a].name != fields[b].name
    requires i < |fields|
    ensures LastInitial(fields, fields[i].name) == fields[i].initial
  {
    var prefix := fields[..|fields| - 1];
    if i < |fields| - 1 {
      assert prefix[i] == fields[i];
      LastInitialDistinct(prefix, i);
    } else {
      LastInitialNamed(prefix, fields[i].name);
      assert fields[i].name !in Names(prefix) by {
        forall j | 0 <= j < |prefix| ensures Names(prefix)[j] != fields[i].name {
          assert prefix[j] == fields[j];
        }
      }
    }
  }

  /** Names that are no field's are absent from the merged values. */
  lemma MergeOnlyFieldNames(fields: seq<FormField>, fieldValues: Dict<string>, k: string)
    requires k !in Names(fields)
    ensures Get(Merge(fields, fieldValues), k) == None
  {
    MergeLookup(fields, fieldValues, k);
    LastInitialNamed(fields, k);
  }

  lemma {:induction false} LastInitialNamed(fields: seq<FormField>, k: string)
    ensures LastInitial(fields, k).Some? ==> k in Names(fields)
  {
    if fields != [] {
      var prefix := fields[..|fields| - 1];
      LastInitialNamed(prefix, k);
      assert Names(fields) == Names(prefix) + [fields[|fields| - 1].name];
    }
  }

  /** The render reduce of the form values. */
  method MergeFormValues(fields: seq<FormField>, fieldValues: Dict<string>) returns (values: Dict<string>)
    ensures values == Merge(fields, fieldValues)
  {
    values := [];
    for i := 0 to |fields|
      invariant values == Merge(fields[..i], fieldValues)
    {
      var field := fields[i];
      assert fields[..i + 1][..i] == fields[..i];
      match Get(fieldValues, field.name) {
        case Some(v) =>
          values := Put(values, field.name, v);
        case None =>
          if field.initial.Some? {
            values := Put(values, field.name, field.initial.value);
          }
      }
    }
    assert fields[..|fields|] == fields;
  }

  /**
   * The fields of the pipeline form: the fields `extra`, then one form field
   * per server parameter with that parameter's name, its default as initial
   * value and the validators and input type of its type.
   */
  predicate RenderedFields(extra: seq<FormField>, parameters: Dict<ServerField>, fields: seq<FormField>) {
    && |fields| == |extra| + |parameters|
    && fields[..|extra|] == extra
    && (forall i :: |extra| <= i < |fields| ==> fields[i].name == parameters[i - |extra|].0)
    && (forall i :: |extra| <= i < |fields| ==>
          var p := parameters[i - |extra|].1;
          fields[i].initial == p.defaultValue && TypedAs(p.fieldType, fields[i]))
  }

  /** The render of the pipeline form: its fields, and the form values merged over them. */
  method RenderForm(extra: seq<FormField>, parameters: Dict<ServerField>, fieldValues: Dict<string>)
    returns (fields: seq<FormField>, values: Dict<string>)
    ensures RenderedFields(extra, parameters, fields)
    ensures values == Merge(fields, fieldValues)
  {
    var parameterFields := MakeFormFields(parameters);
    fields := extra + parameterFields;
    assert fields[..|extra|] == extra;
    forall i | |extra| <= i < |fields|
      ensures fields[i] == parameterFields[i - |extra|]
    {
    }
    values := MergeFormValues(fields, fieldValues);
  }

  class PipelineWrapper {
    var workers: Workers
    var selectedWorker: string
    var selectedPipeline: string
    var fieldValues: Dict<string>

    constructor ()
      ensures workers == [] && fieldValues == []
      ensures selectedWorker == "none" && selectedPipeline == "none"
    {
      workers := [];
      selectedWorker := "none";
      selectedPipeline := "none";
      fieldValues := [];
    }

    /** A new worker table: store it and re-choose the worker, then the pipeline. */
    method OnReceiveWorkers(newWorkers: Workers)
      modifies this
      ensures workers == newWorkers
      ensures selectedWorker == SelectWorker(newWorkers, old(selectedWorker))
      ensures selectedPipeline == SelectPipeline(newWorkers, selectedWorker, old(selectedPipeline))
      ensures fieldValues == old(fieldValues)
    {
      var worker := selectedWorker;
      var pipeline := selectedPipeline;
      if worker !in Keys(newWorkers) {
        worker := if |newWorkers| > 0 then newWorkers[0].0 else "none";
      }
      var chosen := Get(newWorkers, worker);
      if chosen.None? || chosen.value.pipelines.None? {
        pipeline := "none";
      } else if pipeline !in Keys(chosen.value.pipelines.value) {
        var pipelines := chosen.value.pipelines.value;
        pipeline := if |pipelines| > 0 then pipelines[0].0 else "none";
      }
      workers := newWorkers;
      selectedWorker := worker;
      selectedPipeline := pipeline;
    }

    /** An edited field value. */
    method OnFieldChange(name: string, value: string)
      modifies this
      ensures Get(fieldValues, name) == Some(value)
      ensures forall k :: k != name ==> Get(fieldValues, k) == Get(old(fieldValues), k)
      ensures workers == old(workers)
      ensures selectedWorker == old(selectedWorker) && selectedPipeline == old(selectedPipeline)
    {
      fieldValues := Put(fieldValues, name, value);
    }

    /** A new set of field values, copied as `{...values}`; the rest of the state is kept. */
    method SetValues(values: Dict<string>)
      modifies this
      ensures fieldValues == values
      ensures workers == old(workers)
      ensures selectedWorker == old(selectedWorker) && selectedPipeline == old(selectedPipeline)
    {
      fieldValues := values;
    }

    /**
     * A worker picked in the status panel. The pipeline choice is not re-made,
     * so it may name a pipeline the new worker lacks.
     */
    method OnWorkerChange(workerId: string)
      modifies this
      ensures selectedWorker == workerId
      ensures selectedPipeline == old(selectedPipeline)
      ensures workers == old(workers) && fieldValues == old(fieldValues)
    {
      selectedWorker := workerId;
    }

    /** A pipeline picked in the status panel, stored as given. */
    method OnPipelineChange(pipelineName: string)
      modifies this
      ensures selectedPipeline == pipelineName
      ensures selectedWorker == old(selectedWorker)
      ensures workers == old(workers) && fieldValues == old(fieldValues)
    {
      selectedPipeline := pipelineName;
    }

    /**
     * The fields of the form (the extra fields, then the chosen pipeline's
     * parameters) and their values.
     */
    method RenderValues(extraFields: Dict<FormField>) returns (fields: seq<FormField>, values: Dict<string>)
      ensures RenderedFields(Values(extraFields), PipelineParameters(workers, selectedWorker, selectedPipeline), fields)
      ensures values == Merge(fields, fieldValues)
    {
      fields, values := RenderForm(Values(extraFields), PipelineParameters(workers, selectedWorker, selectedPipeline), fieldValues);
    }
  }
}
