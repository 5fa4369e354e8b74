/**
 * The change-password dialog: the guard chain of save_password, the check of
 * the current password against the stored hash, and the update of that one
 * user's senha. SHA-256 is a parameter `hash`.
 */
module ChangePasswordWindow {
  import opened Common
  import opened Usuarios

  const SENHA_MIN: int := 6

  /** The first failing check, in the order the dialog runs them. */
  datatype ErroTroca = CamposVazios | SenhaCurta | SenhasDiferentes | SenhaIncorreta

  /** The checks that run before the database is touched; None when all pass. */
  function ValidarTroca(atual: string, nova: string, confirmar: string): (r: Option<ErroTroca>)
    ensures r.None? <==> atual != [] && nova != [] && confirmar != [] && |nova| >= SENHA_MIN && nova == confirmar
    ensures r == Some(CamposVazios) <==> atual == [] || nova == [] || confirmar == []
    ensures r != Some(SenhaIncorreta)
  {
    if atual == [] || nova == [] || confirmar == [] then Some(CamposVazios)
    else if |nova| < SENHA_MIN then Some(SenhaCurta)
    else if nova != confirmar then Some(SenhasDiferentes)
    else None
  }

  /** A short new password is reported only when every field is filled, and
      a mismatch only when the new password is long enough. */
  lemma ValidarTrocaOrdem(atual: string, nova: string, confirmar: string)
    ensures ValidarTroca(atual, nova, confirmar) == Some(SenhaCurta) <==>
      atual != [] && nova != [] && confirmar != [] && |nova| < SENHA_MIN
    ensures ValidarTroca(atual, nova, confirmar) == Some(SenhasDiferentes) <==>
      atual != [] && nova != [] && confirmar != [] && |nova| >= SENHA_MIN && nova != confirmar
  {
  }

  class ChangePasswordWindow {
    const db: TabelaUsuarios
    const usuarioId: int

    constructor (db: TabelaUsuarios, usuarioId: int)
      ensures this.db == db && this.usuarioId == usuarioId
    {
      this.db := db;
      this.usuarioId := usuarioId;
    }

    /** save_password. None is success; no row changes unless every check
        passes and the current password's hash is the one stored for the user. */
    method SavePassword(atual: string, nova: string, confirmar: string, hash: string -> string)
      returns (erro: Option<ErroTroca>)
      modifies db
      ensures erro.None? <==> ValidarTroca(atual, nova, confirmar).None? && old(db.SenhaConfere(usuarioId, hash(atual)))
      ensures ValidarTroca(atual, nova, confirmar).Some? ==> erro == ValidarTroca(atual, nova, confirmar)
      ensures ValidarTroca(atual, nova, confirmar).None? && !old(db.SenhaConfere(usuarioId, hash(atual))) ==> erro == Some(SenhaIncorreta)
      ensures erro.Some? ==> db.linhas == old(db.linhas)
      ensures erro.None? ==> db.linhas == old(db.linhas)[usuarioId := old(db.linhas)[usuarioId].(senha := hash(nova))]
      ensures erro.None? ==> db.SenhaConfere(usuarioId, hash(nova))
    {
      erro := ValidarTroca(atual, nova, confirmar);
      if erro.Some? {
        return;
      }
      if !db.SenhaConfere(usuarioId, hash(atual)) {
        return Some(SenhaIncorreta);
      }
      db.AtualizarSenha(usuarioId, hash(nova));
    }
  }
}
