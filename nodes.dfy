/** pyobis/nodes/nodes.py: NodesQuery, whose search and activities set the
    shared url and args and make one GET, and whose get_mapper_url is
    available after search. */
module Nodes {
  import opened Builtins
  import opened ObisUtils

  const NodePrefix: string := BaseUrl + "node/"
  const NodeMapperBase: string := MapperBase + "?nodeid="

  class NodesQuery {
    /** The url and args of the last query, shared by every query object. */
    const shared: QueryState
    var mapper: Option<bool>
    var nodeid: Option<string>

    constructor (shared: QueryState)
      ensures this.shared == shared && mapper == None && nodeid == None
    {
      this.shared := shared;
      mapper := None;
      nodeid := None;
    }

    /** get_mapper_url: the mapper view of the node last searched, the
        fixed message after activities, AttributeError before either. */
    function MapperUrl(): (r: Result<string>)
      reads this`mapper, this`nodeid
      ensures mapper.None? ==> r == Err(AttributeError("mapper"))
      ensures mapper == Some(false) ==> r == Ok(NoMapperUrl)
      ensures mapper == Some(true) && nodeid.Some? ==> r == Ok(NodeMapperBase + nodeid.value)
    {
      match mapper
      case None => Err(AttributeError("mapper"))
      case Some(m) =>
        if !m then Ok(NoMapperUrl)
        else
          match nodeid
          case None => Err(AttributeError("nodeid"))
          case Some(id) => Ok(NodeMapperBase + id)
    }

    /** search: the id is concatenated into the path, so an id that is not
        a string raises TypeError before anything is set. */
    method Search(transport: Transport, id: Value, cache: bool) returns (out: Result<Body>)
      modifies this, shared
      ensures !id.VStr? ==> out == Err(TypeError) && unchanged(this, shared)
      ensures id.VStr? ==>
        shared.url == NodePrefix + id.s && shared.args == [] &&
        mapper == Some(true) && nodeid == Some(id.s) &&
        out == JsonGet(transport, Request(NodePrefix + id.s, [], cache)) &&
        MapperUrl() == Ok(NodeMapperBase + id.s)
    {
      if !id.VStr? {
        return Err(TypeError);
      }
      shared.url := NodePrefix + id.s;
      mapper := Some(true);
      shared.args := [];
      nodeid := Some(id.s);
      out := JsonGet(transport, Request(shared.url, shared.args, cache));
    }

    /** activities: the node's activities; the mapper is switched off and
        the recorded node id is left as it was. */
    method Activities(transport: Transport, id: Value, cache: bool) returns (out: Result<Body>)
      modifies this, shared
      ensures !id.VStr? ==> out == Err(TypeError) && unchanged(this, shared)
      ensures id.VStr? ==>
        shared.url == NodePrefix + id.s + "/activities" && shared.args == [] &&
        mapper == Some(false) && nodeid == old(nodeid) &&
        out == JsonGet(transport, Request(NodePrefix + id.s + "/activities", [], cache)) &&
        MapperUrl() == Ok(NoMapperUrl)
    {
      if !id.VStr? {
        return Err(TypeError);
      }
      shared.url := NodePrefix + id.s + "/activities";
      shared.args := [];
      mapper := Some(false);
      out := JsonGet(transport, Request(shared.url, shared.args, cache));
    }
  }
}
