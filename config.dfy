/** The company-settings hook: its default record and how the one GET settles it. */
module Config {
  import opened Common
  import opened Http

  datatype ConfigData = ConfigData(
    nomeEmpresa: string,
    email: string,
    telefone: string,
    whatsapp: string,
    endereco: string,
    site: Option<string>,
    sobre: Option<string>,
    notificacaoEmail: bool,
    notificacaoSms: bool,
    notificacaoWhatsapp: bool)

  /** The record shown before, and instead of, a stored one. */
  const DefaultConfig := ConfigData(
    "ImobiLux",
    "contato@imobilux.com.br",
    "(11) 1234-5678",
    "(11) 91234-5678",
    "Rua Exemplo, 123 - São Paulo, SP",
    Some("www.imobilux.com.br"),
    Some("Encontre o lar dos seus sonhos com a melhor imobiliária da região."),
    true,
    false,
    true)

  /** `err.response?.status === 404`: the server has no stored settings. */
  predicate NotFound(f: Failure) {
    Status(f) == Some(404)
  }

  /** Only a response carrying status 404 is "not found"; an unreachable backend is a real error. */
  lemma NotFoundNeedsResponse(f: Failure)
    ensures NotFound(f) ==> f.AxiosError? && f.error.ErrorStatus? && f.error.status == 404
    ensures f.AxiosError? && f.error.NoResponse? ==> !NotFound(f)
  {
  }

  class ConfigHook {
    var config: ConfigData
    var loading: bool
    var error: Option<Failure>

    constructor ()
      ensures config == DefaultConfig && loading && error == None
    {
      config := DefaultConfig;
      loading := true;
      error := None;
    }

    /**
     * `fetchConfig`: `reply` is how `GET /api/admin/configuracoes/` settles. The stored
     * record on success, the defaults with no error on a 404, the defaults with the error
     * recorded otherwise; loading ends in every case.
     */
    method FetchConfig(reply: Settled<ConfigData>)
      modifies this
      ensures !loading
      ensures reply.Fulfilled? ==> config == reply.value && error == None
      ensures reply.Rejected? && NotFound(reply.reason) ==> config == DefaultConfig && error == old(error)
      ensures reply.Rejected? && !NotFound(reply.reason) ==> config == DefaultConfig && error == Some(reply.reason)
    {
      loading := true;
      match reply {
        case Fulfilled(data) =>
          config := data;
          error := None;
        case Rejected(err) =>
          if Status(err) == Some(404) {
            config := DefaultConfig;
          } else {
            error := Some(err);
            config := DefaultConfig;
          }
      }
      loading := false;
    }
  }
}
