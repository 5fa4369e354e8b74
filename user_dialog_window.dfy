/**
 * The add/edit user dialog: validar_campos, the "Alterar senha" checkbox
 * that enables and clears the password fields, and salvar_usuario, whose
 * calls into the user-account methods of the database (not part of this
 * model) are recorded in a trace with their answers passed in.
 */
module UserDialogWindow {
  import opened Common
  import opened Text

  /** The first failing check of validar_campos. */
  datatype ErroUsuario = NomeObrigatorio | LoginObrigatorio | SenhaObrigatoria | SenhasDiferentes

  /** Calls into the user-account methods, with their arguments. */
  datatype ChamadaUsuario =
    | AtualizarUsuario(id: int, nome: string, login: string, email: string, tipo: string, ativo: int)
    | AlterarSenhaUsuario(id: int, senha: string)
    | CadastrarUsuario(nome: string, login: string, senhaHash: string, email: string, tipo: string)

  /** validar_campos over the field texts; verificaSenha says whether the
      password fields take part. None when the form is valid. */
  function ValidarCampos(nomeTexto: string, loginTexto: string, senha: string, confirmar: string, verificaSenha: bool): (r: Option<ErroUsuario>)
    ensures IsBlank(nomeTexto) ==> r == Some(NomeObrigatorio)
    ensures !IsBlank(nomeTexto) && IsBlank(loginTexto) ==> r == Some(LoginObrigatorio)
    ensures !IsBlank(nomeTexto) && !IsBlank(loginTexto) && verificaSenha && senha == [] ==> r == Some(SenhaObrigatoria)
    ensures !IsBlank(nomeTexto) && !IsBlank(loginTexto) && verificaSenha && senha != [] && senha != confirmar ==>
      r == Some(SenhasDiferentes)
    ensures r.None? <==> !IsBlank(nomeTexto) && !IsBlank(loginTexto) && (verificaSenha ==> senha != [] && senha == confirmar)
    ensures !verificaSenha ==> r != Some(SenhaObrigatoria) && r != Some(SenhasDiferentes)
  {
    if IsBlank(nomeTexto) then Some(NomeObrigatorio)
    else if IsBlank(loginTexto) then Some(LoginObrigatorio)
    else if verificaSenha && senha == [] then Some(SenhaObrigatoria)
    else if verificaSenha && senha != confirmar then Some(SenhasDiferentes)
    else None
  }

  /** The tipo combo's data: "admin" for the Administrador entry, else "comum". */
  function TipoCombo(administrador: bool): (t: string)
    ensures t == "admin" <==> administrador
  {
    if administrador then "admin" else "comum"
  }

  /** The status radios: 1 when Ativo is checked, 0 otherwise. */
  function AtivoDe(ativoMarcado: bool): (a: int)
    ensures a == 1 <==> ativoMarcado
    ensures a == 0 <==> !ativoMarcado
  {
    if ativoMarcado then 1 else 0
  }

  class UserDialogWindow {
    /** Edit mode: the dialog was opened with a usuario_id. */
    const modoEdicao: bool
    const usuarioId: int
    /** The "Alterar senha" checkbox (it exists only in edit mode). */
    var alterarSenha: bool
    /** Whether the two password fields are enabled. */
    var senhaHabilitada: bool
    var senha: string
    var confirmarSenha: string
    var chamadas: seq<ChamadaUsuario>

    /** In edit mode the password fields are enabled exactly when the box is
        checked, and hold nothing while it is unchecked; in add mode there is
        no box and the fields are always enabled. */
    ghost predicate Valid()
      reads this
    {
      && (!modoEdicao ==> !alterarSenha && senhaHabilitada)
      && (modoEdicao ==> senhaHabilitada == alterarSenha)
      && (modoEdicao && !alterarSenha ==> senha == [] && confirmarSenha == [])
    }

    constructor (usuarioId: Option<int>)
      ensures Valid()
      ensures modoEdicao <==> usuarioId.Some?
      ensures usuarioId.Some? ==> this.usuarioId == usuarioId.value
      ensures !alterarSenha && senha == [] && confirmarSenha == [] && chamadas == []
      ensures senhaHabilitada <==> !modoEdicao
    {
      modoEdicao := usuarioId.Some?;
      this.usuarioId := if usuarioId.Some? then usuarioId.value else 0;
      alterarSenha := false;
      senhaHabilitada := !usuarioId.Some?;
      senha := [];
      confirmarSenha := [];
      chamadas := [];
    }

    /** Whether validar_campos checks the password fields. */
    predicate VerificaSenha()
      reads this
    {
      !modoEdicao || alterarSenha
    }

    /** Toggling the checkbox, which runs toggle_senha_fields: the fields
        follow the box, and unchecking clears them. */
    method MarcarAlterarSenha(marcado: bool)
      requires Valid() && modoEdicao
      modifies this
      ensures Valid()
      ensures alterarSenha == marcado && senhaHabilitada == marcado
      ensures marcado ==> senha == old(senha) && confirmarSenha == old(confirmarSenha)
      ensures !marcado ==> senha == [] && confirmarSenha == []
      ensures chamadas == old(chamadas)
    {
      alterarSenha := marcado;
      senhaHabilitada := marcado;
      if !marcado {
        senha := [];
        confirmarSenha := [];
      }
    }

    /** Typing into the password fields, which only enabled fields accept. */
    method DigitarSenhas(senha: string, confirmar: string)
      requires Valid() && senhaHabilitada
      modifies this
      ensures Valid()
      ensures this.senha == senha && confirmarSenha == confirmar
      ensures alterarSenha == old(alterarSenha) && senhaHabilitada == old(senhaHabilitada) && chamadas == old(chamadas)
    {
      this.senha := senha;
      confirmarSenha := confirmar;
    }

    /** salvar_usuario. atualizacaoOk is what atualizar_usuario answers;
        the password is hashed with `hash` only when a new user is stored. */
    method SalvarUsuario(nomeTexto: string, loginTexto: string, emailTexto: string, administrador: bool,
                         ativoMarcado: bool, hash: string -> string, atualizacaoOk: bool)
      returns (erro: Option<ErroUsuario>)
      requires Valid()
      modifies this
      ensures Valid()
      ensures erro == ValidarCampos(nomeTexto, loginTexto, senha, confirmarSenha, VerificaSenha())
      ensures alterarSenha == old(alterarSenha) && senha == old(senha) && confirmarSenha == old(confirmarSenha)
      ensures erro.Some? ==> chamadas == old(chamadas)
      ensures erro.None? && VerificaSenha() ==> senha != [] && senha == confirmarSenha
      ensures erro.None? && !modoEdicao ==>
        chamadas == old(chamadas) + [CadastrarUsuario(Strip(nomeTexto), Strip(loginTexto), hash(senha), Strip(emailTexto), TipoCombo(administrador))]
      ensures erro.None? && modoEdicao ==>
        var atualizacao := AtualizarUsuario(usuarioId, Strip(nomeTexto), Strip(loginTexto), Strip(emailTexto), TipoCombo(administrador), AtivoDe(ativoMarcado));
        chamadas == old(chamadas) + [atualizacao] + (if atualizacaoOk && alterarSenha then [AlterarSenhaUsuario(usuarioId, senha)] else [])
    {
      erro := ValidarCampos(nomeTexto, loginTexto, senha, confirmarSenha, VerificaSenha());
      if erro.Some? {
        return;
      }
      var nome := Strip(nomeTexto);
      var login := Strip(loginTexto);
      var email := Strip(emailTexto);
      var tipo := TipoCombo(administrador);
      var novas: seq<ChamadaUsuario>;
      if modoEdicao {
        novas := [AtualizarUsuario(usuarioId, nome, login, email, tipo, AtivoDe(ativoMarcado))];
        if atualizacaoOk && alterarSenha {
          novas := novas + [AlterarSenhaUsuario(usuarioId, senha)];
        }
      } else {
        novas := [CadastrarUsuario(nome, login, hash(senha), email, tipo)];
      }
      chamadas := chamadas + novas;
    }
  }
}
