/**
 * The profile dialog: the avatar initials and save_profile, which validates
 * the name and e-mail and then writes them to the user's row and to the
 * session's usuario record. The login is shown read-only and never written.
 */
module ProfileWindow {
  import opened Common
  import opened Text
  import opened Usuarios

  /** The session's usuario record, shared with the main window. */
  datatype Perfil = Perfil(id: int, nome: string, login: string, email: Option<string>)

  datatype ErroPerfil = NomeEmBranco | EmailInvalido

  /** The first up-to-two words of a name. */
  function PrimeirasPalavras(nome: string): (ws: seq<string>)
    ensures |ws| == if |Split(nome)| < 2 then |Split(nome)| else 2
    ensures ws == Split(nome)[..|ws|]
  {
    var todas := Split(nome);
    if |todas| <= 2 then todas else todas[..2]
  }

  /** "".join of the upper-cased first characters of the given words. */
  function IniciaisDe(ws: seq<string>): string
    requires forall k | 0 <= k < |ws| :: ws[k] != []
  {
    if ws == [] then [] else Upper(ws[0][0]) + IniciaisDe(ws[1..])
  }

  /** The avatar text: the upper-cased first character of each of the first
      two words of the name. Upper-casing can lengthen a character (sharp s
      becomes "SS"), so the text has up to four characters. */
  function Iniciais(nome: string): (r: string)
    ensures |Split(nome)| == 0 ==> r == []
    ensures |Split(nome)| == 1 ==> r == Upper(Split(nome)[0][0])
    ensures |Split(nome)| >= 2 ==> r == Upper(Split(nome)[0][0]) + Upper(Split(nome)[1][0])
  {
    var ws := PrimeirasPalavras(nome);
    assert |ws| >= 1 ==> IniciaisDe(ws[1..]) == if |ws| == 1 then [] else Upper(ws[1][0]) + IniciaisDe(ws[2..]);
    IniciaisDe(ws)
  }

  /** A blank name has no initials and any other name at least one; a name of
      two or more words has two initials, four characters at most, and
      exactly two characters unless a word starts with sharp s. */
  lemma IniciaisVazias(nome: string)
    ensures Iniciais(nome) == [] <==> IsBlank(nome)
    ensures |Split(nome)| >= 2 ==> 2 <= |Iniciais(nome)| <= 4
    ensures |Split(nome)| >= 2 && Split(nome)[0][0] != '\U{DF}' && Split(nome)[1][0] != '\U{DF}' ==> |Iniciais(nome)| == 2
  {
    BlankIffNoWords(nome);
  }

  /** A name of two words separated by whitespace has as initials the two
      words' upper-cased first characters, accented letters included:
      "érica souza" gives "ÉS". */
  lemma IniciaisDeDuasPalavras(primeiro: string, espaco: string, segundo: string)
    requires IsWord(primeiro) && IsWord(segundo) && espaco != [] && AllSpace(espaco)
    ensures Iniciais(primeiro + espaco + segundo) == Upper(primeiro[0]) + Upper(segundo[0])
  {
    SplitAposPalavra(segundo, []);
    assert segundo + [] == segundo;
    SplitAposEspacos(espaco, segundo);
    SplitAposPalavra(primeiro, espaco + segundo);
    assert primeiro + espaco + segundo == primeiro + (espaco + segundo);
  }

  /** The check save_profile runs as written: the name is stripped, but the
      e-mail pattern is matched against the field's raw text. */
  function ValidarPerfilComoEscrito(nomeTexto: string, emailTexto: string): (r: Option<ErroPerfil>)
    ensures r == Some(NomeEmBranco) <==> IsBlank(nomeTexto)
    ensures r.None? <==> !IsBlank(nomeTexto) && (IsBlank(emailTexto) || MatchesEmailPattern(emailTexto))
  {
    IsEmailIff(emailTexto);
    if IsBlank(nomeTexto) then Some(NomeEmBranco)
    else if !IsBlank(emailTexto) && !IsEmail(emailTexto) then Some(EmailInvalido)
    else None
  }

  /** As written, a leading space before the '@' lets through an e-mail whose
      stored, stripped form does not match the pattern. */
  lemma EmailComEspacoAceito()
    ensures ValidarPerfilComoEscrito("Ana", " @b.co").None?
    ensures Strip(" @b.co") == "@b.co"
    ensures !MatchesEmailPattern("@b.co")
  {
    var e := " @b.co";
    assert EmailSplitAt(e, 1, 3) by {
      assert e[..1] == " " && e[2..3] == "b" && e[4..] == "co";
    }
    assert !IsSpace(e[1]) && !IsSpace(e[5]);
    assert StripLeft(e) == e[1..];
    assert e[1..] == "@b.co";
    assert StripRight("@b.co") == "@b.co";
    assert !IsBlank("Ana") by {
      assert StripLeft("Ana") == "Ana";
      assert StripRight("Ana") == "Ana";
    }
    IsEmailIff("@b.co");
    assert IndexOf("@b.co", '@') == 0;
  }

  /** The check with the e-mail matched against the stripped value that is
      stored, as the registration form does. */
  function ValidarPerfil(nomeTexto: string, emailTexto: string): (r: Option<ErroPerfil>)
    ensures r == Some(NomeEmBranco) <==> IsBlank(nomeTexto)
    ensures r.None? <==> !IsBlank(nomeTexto) && (IsBlank(emailTexto) || MatchesEmailPattern(Strip(emailTexto)))
  {
    IsEmailIff(Strip(emailTexto));
    if IsBlank(nomeTexto) then Some(NomeEmBranco)
    else if !IsBlank(emailTexto) && !IsEmail(Strip(emailTexto)) then Some(EmailInvalido)
    else None
  }

  class ProfileWindow {
    var usuario: Perfil
    const db: TabelaUsuarios

    constructor (db: TabelaUsuarios, usuario: Perfil)
      ensures this.db == db && this.usuario == usuario
    {
      this.db := db;
      this.usuario := usuario;
    }

    /** save_profile. On success the stripped name and e-mail go to the
        user's row and to the session record; on failure nothing changes.
        The login is never written. */
    method SaveProfile(nomeTexto: string, emailTexto: string) returns (erro: Option<ErroPerfil>)
      modifies this, db
      ensures erro == ValidarPerfil(nomeTexto, emailTexto)
      ensures erro.Some? ==> usuario == old(usuario) && db.linhas == old(db.linhas)
      ensures erro.None? ==> usuario == old(usuario).(nome := Strip(nomeTexto), email := Some(Strip(emailTexto)))
      ensures erro.None? ==> usuario.id == old(usuario.id) && usuario.login == old(usuario.login)
      ensures erro.None? && old(usuario.id) in old(db.linhas) ==>
        db.linhas == old(db.linhas)[old(usuario.id) := old(db.linhas)[old(usuario.id)].(nome := Strip(nomeTexto), email := Some(Strip(emailTexto)))]
      ensures erro.None? && old(usuario.id) !in old(db.linhas) ==> db.linhas == old(db.linhas)
      ensures erro.None? ==> Strip(emailTexto) == [] || MatchesEmailPattern(Strip(emailTexto))
    {
      erro := ValidarPerfil(nomeTexto, emailTexto);
      if erro.Some? {
        return;
      }
      var nome := Strip(nomeTexto);
      var email := Strip(emailTexto);
      db.AtualizarPerfil(usuario.id, nome, email);
      usuario := usuario.(nome := nome, email := Some(email));
    }
  }
}
