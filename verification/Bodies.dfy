/** The parts of the specifications that the builders share. */
module Bodies {
  import opened Values

  /** A label or selector map. */
  function LabelsValue(labels: map<string, string>): Value {
    Record(map k | k in labels :: Str(labels[k]))
  }

  /** target is zero where the builder leaves it unset. */
  function Port(name: string, port: int, target: int): Value {
    Record(map["name" := Str(name), "port" := Num(port), "targetPort" := Num(target)])
  }

  /** The clusterIP is empty where the builder leaves it unset. */
  function ServiceBody(clusterIP: string, selector: map<string, string>, ports: seq<Value>): Value {
    Record(map["clusterIP" := Str(clusterIP), "selector" := LabelsValue(selector), "ports" := List(ports)])
  }

  /** Every label the selector asks for is on the pods of the template. */
  predicate Selects(service: Value, workload: Value) {
    && service.Record? && workload.Record? && "selector" in service.fields && "template" in workload.fields
    && service.fields["selector"].Record? && workload.fields["template"].Record?
    && var selector, labels := service.fields["selector"].fields, workload.fields["template"].fields;
       forall k :: k in selector ==> k in labels && labels[k] == selector[k]
  }
}
