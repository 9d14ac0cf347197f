/**
 * A MapReduce JobConf as the import job changes it: its configuration
 * entries, its credential store, and the output bindings made on it.
 */
module Job {
  import opened Wrappers
  import opened HadoopConf
  import Kite

  /** A decoded delegation token; its identifier and secret are not modelled. */
  datatype Token = Token(urlString: string)

  /** The job configuration, updated in place. */
  class JobConf {
    var props: Props
    var credentials: map<string, Token>
    var outputs: seq<Kite.OutputBinding>

    constructor (props: Props, credentials: map<string, Token>)
      ensures this.props == props && this.credentials == credentials && outputs == []
    {
      this.props := props;
      this.credentials := credentials;
      outputs := [];
    }

    /** Configuration.set(key, value). */
    method Set(key: string, value: string)
      modifies this
      ensures props == old(props)[key := value]
      ensures credentials == old(credentials) && outputs == old(outputs)
    {
      props := props[key := value];
    }

    /** setIfUnset for every entry of another configuration: keys already set keep their values. */
    method AddAllIfUnset(entries: Props)
      modifies this
      ensures props == entries + old(props)
      ensures forall key :: key in old(props) ==> key in props && props[key] == old(props)[key]
      ensures forall key :: key in entries && key !in old(props) ==> key in props && props[key] == entries[key]
      ensures credentials == old(credentials) && outputs == old(outputs)
    {
      props := entries + props;
    }

    /** getCredentials().getToken(alias); None stands for null. */
    function GetToken(alias: string): (r: Option<Token>)
      reads this
      ensures r.Some? <==> alias in credentials
      ensures r.Some? ==> r.value == credentials[alias]
    {
      if alias in credentials then Some(credentials[alias]) else None
    }

    /** getCredentials().addToken(alias, token). */
    method AddToken(alias: string, token: Token)
      modifies this
      ensures credentials == old(credentials)[alias := token]
      ensures props == old(props) && outputs == old(outputs)
    {
      credentials := credentials[alias := token];
    }

    /** One writeTo / appendTo / overwrite call on DatasetKeyOutputFormat.configure(this). */
    method Bind(binding: Kite.OutputBinding)
      modifies this
      ensures outputs == old(outputs) + [binding]
      ensures props == old(props) && credentials == old(credentials)
    {
      outputs := outputs + [binding];
    }
  }
}
