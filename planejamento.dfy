/**
 * Planning records: planning categories and planned tasks of a development,
 * with planned and actual cost in cents.
 */
module Planejamento {
  import opened Wrappers
  import opened Calendar
  import opened Comercial

  datatype CategoriaPlanejamento = CategoriaPlanejamento(nome: string)

  datatype TarefaPlanejada = TarefaPlanejada(
    empreendimento: Empreendimento,
    categoria: Option<CategoriaPlanejamento>,
    nome: string,
    dataInicioPrevista: Date,
    dataFimPrevista: Date,
    dataFimReal: Option<Date>,
    custoPlanejado: Option<int>,
    custoReal: Option<int>)

  /** A task created with the column defaults: no actual end date, actual cost 0. */
  function NovaTarefa(empreendimento: Empreendimento, categoria: Option<CategoriaPlanejamento>, nome: string,
                      inicio: Date, fim: Date, custoPlanejado: int): (t: TarefaPlanejada)
    ensures t.custoReal == Some(0) && t.dataFimReal == None
    ensures t.custoPlanejado == Some(custoPlanejado)
    ensures t.empreendimento == empreendimento && t.categoria == categoria && t.nome == nome
    ensures t.dataInicioPrevista == inicio && t.dataFimPrevista == fim
  {
    TarefaPlanejada(empreendimento, categoria, nome, inicio, fim, None, Some(custoPlanejado), Some(0))
  }

  /** `variacao_custo`: how much the actual cost overran the plan (negative when under plan). */
  function VariacaoCusto(t: TarefaPlanejada): (v: int)
    ensures OrZero(t.custoPlanejado) + v == OrZero(t.custoReal)
    ensures v == 0 <==> OrZero(t.custoReal) == OrZero(t.custoPlanejado)
    ensures v > 0 <==> OrZero(t.custoReal) > OrZero(t.custoPlanejado)
  {
    OrZero(t.custoReal) - OrZero(t.custoPlanejado)
  }

  /** A task with no actual cost recorded is under plan by its whole planned cost. */
  lemma NovaTarefaVariacao(empreendimento: Empreendimento, categoria: Option<CategoriaPlanejamento>, nome: string,
                           inicio: Date, fim: Date, custoPlanejado: int)
    ensures VariacaoCusto(NovaTarefa(empreendimento, categoria, nome, inicio, fim, custoPlanejado)) == -custoPlanejado
  {
  }
}
