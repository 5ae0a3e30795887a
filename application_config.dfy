/** The pipeline-service client section of the server configuration. Its
    SSL map may still use the old key `certificatePath`; reading the section
    renames that key to `caCertificate`, in place. */
module ApplicationConfig {
  import opened Wrappers

  const CERTIFICATE_PATH := "certificatePath"
  const CA_CERTIFICATE := "caCertificate"

  /** The SSL map after the rename. A missing map (null) stays missing. */
  function RenameCertificatePath(ssl: Option<map<string, string>>): (r: Option<map<string, string>>)
    ensures r.None? <==> ssl.None?
    ensures ssl.Some? && CERTIFICATE_PATH in ssl.value ==>
      CERTIFICATE_PATH !in r.value && CA_CERTIFICATE in r.value
      && r.value[CA_CERTIFICATE] == ssl.value[CERTIFICATE_PATH]
    ensures ssl.Some? && CERTIFICATE_PATH !in ssl.value ==> r == ssl
    ensures ssl.Some? ==> forall k :: k != CERTIFICATE_PATH && k != CA_CERTIFICATE ==>
      (k in r.value <==> k in ssl.value) && (k in ssl.value ==> r.value[k] == ssl.value[k])
  {
    match ssl
    case None => None
    case Some(m) =>
      if CERTIFICATE_PATH in m then
        Some((m[CA_CERTIFICATE := m[CERTIFICATE_PATH]]) - {CERTIFICATE_PATH})
      else ssl
  }

  /** Reading the section twice gives the same SSL map as reading it once. */
  lemma RenameIdempotent(ssl: Option<map<string, string>>)
    ensures RenameCertificatePath(RenameCertificatePath(ssl)) == RenameCertificatePath(ssl)
  {
  }

  class PipelineServiceClientConfiguration {
    var sslConfig: Option<map<string, string>>

    constructor(sslConfig: Option<map<string, string>>)
      ensures this.sslConfig == sslConfig
    {
      this.sslConfig := sslConfig;
    }
  }

  class OpenMetadataApplicationConfig {
    var pipelineServiceClientConfiguration: PipelineServiceClientConfiguration?

    constructor(c: PipelineServiceClientConfiguration?)
      ensures pipelineServiceClientConfiguration == c
    {
      pipelineServiceClientConfiguration := c;
    }

    /** `getPipelineServiceClientConfiguration`: returns the section after
        renaming its SSL key; a missing section is returned as it is and
        nothing changes. */
    method GetPipelineServiceClientConfiguration() returns (c: PipelineServiceClientConfiguration?)
      modifies pipelineServiceClientConfiguration
      ensures c == pipelineServiceClientConfiguration
      ensures c != null ==> c.sslConfig == RenameCertificatePath(old(c.sslConfig))
    {
      c := pipelineServiceClientConfiguration;
      if c != null {
        var temporary := c.sslConfig;
        if temporary.Some? && CERTIFICATE_PATH in temporary.value {
          var m := temporary.value;
          m := m[CA_CERTIFICATE := m[CERTIFICATE_PATH]];
          m := m - {CERTIFICATE_PATH};
          temporary := Some(m);
        }
        c.sslConfig := temporary;
      }
    }
  }

  /** For any section, a second read sees the SSL map the first read made:
      the original map renamed once, which stays in place. */
  method ReadTwice(config: OpenMetadataApplicationConfig) returns (first: Option<map<string, string>>, second: Option<map<string, string>>)
    requires config.pipelineServiceClientConfiguration != null
    modifies config.pipelineServiceClientConfiguration
    ensures first == second == RenameCertificatePath(old(config.pipelineServiceClientConfiguration.sslConfig))
    ensures config.pipelineServiceClientConfiguration.sslConfig == first
  {
    var c := config.GetPipelineServiceClientConfiguration();
    first := c.sslConfig;
    c := config.GetPipelineServiceClientConfiguration();
    second := c.sslConfig;
    RenameIdempotent(old(config.pipelineServiceClientConfiguration.sslConfig));
  }
}
