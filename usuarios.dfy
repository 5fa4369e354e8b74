/**
 * The part of the usuarios table the account forms read and write
 * directly: the SELECT and the two UPDATEs that change_password_window.py
 * and profile_window.py run with their own cursor. The table's creation is
 * not part of database/db_manager.py, so only these columns are modelled.
 */
module Usuarios {
  import opened Common

  /** One usuarios row; senha holds the stored password hash. */
  datatype Usuario = Usuario(nome: string, login: string, senha: string, email: Option<string>)

  class TabelaUsuarios {
    var linhas: map<int, Usuario>

    constructor (linhas: map<int, Usuario>)
      ensures this.linhas == linhas
    {
      this.linhas := linhas;
    }

    /** `SELECT id FROM usuarios WHERE id = ? AND senha = ?` finds a row. */
    predicate SenhaConfere(id: int, senhaHash: string)
      reads this
    {
      id in linhas && linhas[id].senha == senhaHash
    }

    /** `UPDATE usuarios SET senha = ? WHERE id = ?`: no row, no change. */
    method AtualizarSenha(id: int, senhaHash: string)
      modifies this
      ensures id in old(linhas) ==> linhas == old(linhas)[id := old(linhas)[id].(senha := senhaHash)]
      ensures id !in old(linhas) ==> linhas == old(linhas)
      ensures SenhaConfere(id, senhaHash) <==> id in old(linhas)
    {
      if id in linhas {
        linhas := linhas[id := linhas[id].(senha := senhaHash)];
      }
    }

    /** `UPDATE usuarios SET nome = ?, email = ? WHERE id = ?`. */
    method AtualizarPerfil(id: int, nome: string, email: string)
      modifies this
      ensures id in old(linhas) ==> linhas == old(linhas)[id := old(linhas)[id].(nome := nome, email := Some(email))]
      ensures id !in old(linhas) ==> linhas == old(linhas)
      ensures forall outro | outro in old(linhas) && outro != id :: outro in linhas && linhas[outro] == old(linhas)[outro]
    {
      if id in linhas {
        linhas := linhas[id := linhas[id].(nome := nome, email := Some(email))];
      }
    }
  }
}
