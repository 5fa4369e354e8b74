/**
 * The account registration form: the login field's character filter and
 * the ordered guard chain of handle_register, which ends in one call to
 * cadastrar_usuario with the collected values.
 */
module RegisterWindow {
  import opened Common
  import opened Text

  const SENHA_MIN: int := 6
  const TEXTO_ADMIN: string := "Administrador"

  /** The first failing check, in the order the form runs them. */
  datatype ErroCadastro = CamposVazios | SenhaCurta | SenhasDiferentes | EmailInvalido

  /** The arguments of the cadastrar_usuario call. */
  datatype Cadastro = Cadastro(nome: string, login: string, senha: string, email: string, tipo: string)

  /** The user-type combo: "admin" for its Administrador entry, "comum" otherwise. */
  function TipoDe(textoCombo: string): (t: string)
    ensures t == "admin" <==> textoCombo == TEXTO_ADMIN
    ensures t == "admin" || t == "comum"
  {
    if textoCombo == TEXTO_ADMIN then "admin" else "comum"
  }

  /** The login line edit with its [a-zA-Z0-9_]+ validator: an edit is kept
      only when the new text is still made of those characters (the empty
      text is an intermediate state the validator lets through). */
  function EditarLogin(atual: string, novo: string): (r: string)
    ensures r == novo || r == atual
    ensures AllLoginChars(atual) ==> AllLoginChars(r)
    ensures AllLoginChars(novo) ==> r == novo
  {
    if AllLoginChars(novo) then novo else atual
  }

  /** The login characters are not whitespace, so strip() keeps a login text. */
  lemma LoginSemEspaco(s: string)
    requires AllLoginChars(s)
    ensures Strip(s) == s
  {
    forall k | 0 <= k < |s|
      ensures !IsSpace(s[k])
    {
      assert IsLoginChar(s[k]);
    }
    StripSemEspaco(s);
  }

  /** `nome`, `login`, `email` (stripped) and `senha` are all non-empty. */
  predicate Preenchidos(nomeTexto: string, loginTexto: string, emailTexto: string, senha: string) {
    !IsBlank(nomeTexto) && !IsBlank(loginTexto) && !IsBlank(emailTexto) && senha != []
  }

  /** handle_register: the guard chain over the form's texts. The login text
      is what the validated field can hold. */
  function HandleRegister(nomeTexto: string, loginTexto: string, emailTexto: string,
                          senha: string, confirmarSenha: string, textoTipo: string): (r: Result<Cadastro, ErroCadastro>)
    requires AllLoginChars(loginTexto)
    ensures r.Success? ==> r.value == Cadastro(Strip(nomeTexto), loginTexto, senha, Strip(emailTexto), TipoDe(textoTipo))
    ensures r == Failure(CamposVazios) <==> !Preenchidos(nomeTexto, loginTexto, emailTexto, senha)
  {
    LoginSemEspaco(loginTexto);
    if !Preenchidos(nomeTexto, loginTexto, emailTexto, senha) then Failure(CamposVazios)
    else if |senha| < SENHA_MIN then Failure(SenhaCurta)
    else if senha != confirmarSenha then Failure(SenhasDiferentes)
    else if !IsEmail(Strip(emailTexto)) then Failure(EmailInvalido)
    else Success(Cadastro(Strip(nomeTexto), Strip(loginTexto), senha, Strip(emailTexto), TipoDe(textoTipo)))
  }

  /** Every check passes exactly when the stripped fields are non-empty, the
      password has at least six characters and is confirmed, and the stripped
      e-mail fully matches [^@]+@[^@]+\.[a-zA-Z]{2,}; what is registered then
      has a login matching [a-zA-Z0-9_]+. */
  lemma CadastroAceitoIff(nomeTexto: string, loginTexto: string, emailTexto: string,
                          senha: string, confirmarSenha: string, textoTipo: string)
    requires AllLoginChars(loginTexto)
    ensures HandleRegister(nomeTexto, loginTexto, emailTexto, senha, confirmarSenha, textoTipo).Success?
      <==> && Preenchidos(nomeTexto, loginTexto, emailTexto, senha)
           && |senha| >= SENHA_MIN && senha == confirmarSenha
           && MatchesEmailPattern(Strip(emailTexto))
    ensures HandleRegister(nomeTexto, loginTexto, emailTexto, senha, confirmarSenha, textoTipo).Success? ==>
      MatchesLoginPattern(HandleRegister(nomeTexto, loginTexto, emailTexto, senha, confirmarSenha, textoTipo).value.login)
  {
    IsEmailIff(Strip(emailTexto));
  }

  /** The checks run in order and the first failure is reported: a short
      password is only reported once every field is filled, a mismatch only
      once the password is long enough, and a bad e-mail only once the
      passwords agree. */
  lemma PrimeiraFalhaReportada(nomeTexto: string, loginTexto: string, emailTexto: string,
                               senha: string, confirmarSenha: string, textoTipo: string)
    requires AllLoginChars(loginTexto)
    ensures var r := HandleRegister(nomeTexto, loginTexto, emailTexto, senha, confirmarSenha, textoTipo);
      var preenchidos := Preenchidos(nomeTexto, loginTexto, emailTexto, senha);
      && (r == Failure(SenhaCurta) <==> preenchidos && |senha| < SENHA_MIN)
      && (r == Failure(SenhasDiferentes) <==> preenchidos && |senha| >= SENHA_MIN && senha != confirmarSenha)
      && (r == Failure(EmailInvalido) <==>
            preenchidos && |senha| >= SENHA_MIN && senha == confirmarSenha && !MatchesEmailPattern(Strip(emailTexto)))
  {
    IsEmailIff(Strip(emailTexto));
  }
}
