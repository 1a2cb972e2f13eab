/** Package `configs`: the top-level pool configuration. It holds the node,
    persistence, logging and failure settings, which the model keeps as
    references without contents, and the parameter set of
    ConfigsParams. */
module Configs {
  import opened Java
  import ConfigsParams

  /** The node connection settings (configs.node.SmartPoolNodeConfig). */
  class SmartPoolNodeConfig { }

  /** The database settings (configs.PersistenceConfig). */
  class PersistenceConfig { }

  /** The logging settings (configs.LoggingConfig). */
  class LoggingConfig { }

  /** The failure-handling settings (configs.FailuresConfig). */
  class FailuresConfig { }

  class SmartPoolConfig {
    var node: SmartPoolNodeConfig?
    var parameters: ConfigsParams.SmartPoolParameters?
    var persistence: PersistenceConfig?
    var logging: LoggingConfig?
    var failures: FailuresConfig?

    /** Stores its five arguments as given. */
    constructor (nodeConf: SmartPoolNodeConfig?, paramConf: ConfigsParams.SmartPoolParameters?,
                 persConfig: PersistenceConfig?, logConf: LoggingConfig?, failConf: FailuresConfig?)
      ensures node == nodeConf && parameters == paramConf && persistence == persConfig
      ensures logging == logConf && failures == failConf
    {
      node, parameters, persistence, logging, failures := nodeConf, paramConf, persConfig, logConf, failConf;
    }

    /** A new configuration that forks only the parameter set: its
        `parameters` is a fresh copy of this one's (which shares the catalog
        records and fee maps, see ConfigsParams.SmartPoolParameters.Copy),
        while node, persistence, logging and failures are this
        configuration's own objects. With no parameter set the call
        dereferences null and throws. `this` is left unchanged. */
    method Copy() returns (r: Result<SmartPoolConfig>)
      ensures r.Throws? <==> parameters == null
      ensures r.Throws? ==> r.exception == NullPointerException
      ensures r.Ok? ==> fresh(r.value) && r.value != this
      ensures r.Ok? ==> r.value.node == node && r.value.persistence == persistence
      ensures r.Ok? ==> r.value.logging == logging && r.value.failures == failures
      ensures r.Ok? ==> r.value.parameters != null && fresh(r.value.parameters)
      ensures r.Ok? ==> r.value.parameters != parameters
      ensures r.Ok? ==> r.value.parameters.Fields() == parameters.Fields()
    {
      if parameters == null {
        return Throws(NullPointerException);
      }
      var p := parameters.Copy();
      var c := new SmartPoolConfig(node, p, persistence, logging, failures);
      return Ok(c);
    }

    method SetParameters(parameters: ConfigsParams.SmartPoolParameters?)
      modifies this`parameters
      ensures this.parameters == parameters
    {
      this.parameters := parameters;
    }

    method SetNode(node: SmartPoolNodeConfig?)
      modifies this`node
      ensures this.node == node
    {
      this.node := node;
    }

    method SetPersistence(persistence: PersistenceConfig?)
      modifies this`persistence
      ensures this.persistence == persistence
    {
      this.persistence := persistence;
    }

    method SetFailure(failure: FailuresConfig?)
      modifies this`failures
      ensures failures == failure
    {
      failures := failure;
    }

    method SetLogging(logging: LoggingConfig?)
      modifies this`logging
      ensures this.logging == logging
    {
      this.logging := logging;
    }
  }
}
