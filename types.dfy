/**
 * The entity records of the dashboard and their closed enumerations. Each enumeration has
 * the code the application stores and compares (`'funcionario'`, `'em_uso'`, ...).
 */
module Types {
  import opened Wrappers

  /** Access level of a user. */
  datatype Nivel = Funcionario | Gerente | Admin

  datatype Categoria = Equipamento | Veiculo | Seguranca

  datatype StatusRecurso = Disponivel | EmUso | Manutencao | Inativo

  /** Security level of an area. */
  datatype NivelArea = Baixo | Medio | Alto | Restrito

  datatype StatusArea = Ativo | Alerta | EmManutencao

  datatype TipoAtividade = Acesso | RecursoAtividade | SegurancaAtividade | Sistema

  datatype StatusAtividade = Sucesso | Falha | Pendente

  /** `foto` is the only optional field. */
  datatype User = User(
    id: string, nome: string, email: string, cargo: string, nivel: Nivel,
    ativo: bool, ultimoAcesso: string, foto: Option<string>)

  datatype Recurso = Recurso(
    id: string, nome: string, categoria: Categoria, status: StatusRecurso,
    localizacao: string, responsavel: string, dataAquisicao: string, valor: real, descricao: string)

  /**
   * A security area. The first six fields are the declared ones; the other five are the
   * properties that an area saved from the area form carries as well (the form's data is
   * spread into the saved record) and that the form reads back when it edits the area. An area
   * that lacks them (the seed areas) has them empty.
   */
  datatype AreaSeguranca = AreaSeguranca(
    id: string, nome: string, nivel: NivelArea, acessosPermitidos: seq<string>,
    ultimaVistoria: string, status: StatusArea,
    descricao: string, localizacao: string, responsavel: string,
    equipamentos: seq<string>, protocolos: seq<string>)

  datatype Atividade = Atividade(
    id: string, tipo: TipoAtividade, descricao: string, usuario: string,
    timestamp: string, status: StatusAtividade)

  function NivelCode(n: Nivel): string {
    match n
    case Funcionario => "funcionario"
    case Gerente => "gerente"
    case Admin => "admin"
  }

  function CategoriaCode(c: Categoria): string {
    match c
    case Equipamento => "equipamento"
    case Veiculo => "veiculo"
    case Seguranca => "seguranca"
  }

  function StatusRecursoCode(s: StatusRecurso): string {
    match s
    case Disponivel => "disponivel"
    case EmUso => "em_uso"
    case Manutencao => "manutencao"
    case Inativo => "inativo"
  }

  function NivelAreaCode(n: NivelArea): string {
    match n
    case Baixo => "baixo"
    case Medio => "medio"
    case Alto => "alto"
    case Restrito => "restrito"
  }

  function StatusAreaCode(s: StatusArea): string {
    match s
    case Ativo => "ativo"
    case Alerta => "alerta"
    case EmManutencao => "manutencao"
  }

  function TipoAtividadeCode(t: TipoAtividade): string {
    match t
    case Acesso => "acesso"
    case RecursoAtividade => "recurso"
    case SegurancaAtividade => "seguranca"
    case Sistema => "sistema"
  }

  function StatusAtividadeCode(s: StatusAtividade): string {
    match s
    case Sucesso => "sucesso"
    case Falha => "falha"
    case Pendente => "pendente"
  }

  /** The codes tell the values apart, so comparing a stored code with a filter value picks
    * out exactly one value of each enumeration. */
  lemma CodesAreDistinct()
    ensures forall a: Nivel, b: Nivel :: NivelCode(a) == NivelCode(b) ==> a == b
    ensures forall a: Categoria, b: Categoria :: CategoriaCode(a) == CategoriaCode(b) ==> a == b
    ensures forall a: StatusRecurso, b: StatusRecurso :: StatusRecursoCode(a) == StatusRecursoCode(b) ==> a == b
    ensures forall a: NivelArea, b: NivelArea :: NivelAreaCode(a) == NivelAreaCode(b) ==> a == b
    ensures forall a: StatusArea, b: StatusArea :: StatusAreaCode(a) == StatusAreaCode(b) ==> a == b
    ensures forall a: TipoAtividade, b: TipoAtividade :: TipoAtividadeCode(a) == TipoAtividadeCode(b) ==> a == b
    ensures forall a: StatusAtividade, b: StatusAtividade :: StatusAtividadeCode(a) == StatusAtividadeCode(b) ==> a == b
  {
    forall a: Nivel, b: Nivel | NivelCode(a) == NivelCode(b) ensures a == b {
      assert NivelCode(a)[0] == NivelCode(b)[0];
    }
    forall a: Categoria, b: Categoria | CategoriaCode(a) == CategoriaCode(b) ensures a == b {
      assert CategoriaCode(a)[0] == CategoriaCode(b)[0];
    }
    forall a: StatusRecurso, b: StatusRecurso | StatusRecursoCode(a) == StatusRecursoCode(b) ensures a == b {
      assert StatusRecursoCode(a)[0] == StatusRecursoCode(b)[0];
      assert StatusRecursoCode(a)[1] == StatusRecursoCode(b)[1];
    }
    forall a: NivelArea, b: NivelArea | NivelAreaCode(a) == NivelAreaCode(b) ensures a == b {
      assert NivelAreaCode(a)[0] == NivelAreaCode(b)[0];
      assert NivelAreaCode(a)[1] == NivelAreaCode(b)[1];
    }
    forall a: StatusArea, b: StatusArea | StatusAreaCode(a) == StatusAreaCode(b) ensures a == b {
      assert StatusAreaCode(a)[1] == StatusAreaCode(b)[1];
    }
    forall a: TipoAtividade, b: TipoAtividade | TipoAtividadeCode(a) == TipoAtividadeCode(b) ensures a == b {
      assert TipoAtividadeCode(a)[0] == TipoAtividadeCode(b)[0];
      assert TipoAtividadeCode(a)[1] == TipoAtividadeCode(b)[1];
    }
    forall a: StatusAtividade, b: StatusAtividade | StatusAtividadeCode(a) == StatusAtividadeCode(b) ensures a == b {
      assert StatusAtividadeCode(a)[0] == StatusAtividadeCode(b)[0];
    }
  }
}
